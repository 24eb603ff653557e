/**
 * The joypad register (P1). A write selects the action or the direction group of buttons; a
 * read reports the selected group's four buttons in bits 0..3, a pressed button as 1.
 */
module Joypad {
  import opened Bits

  datatype Button = Start | Select | Down | Up | Left | Right | A | B {
    /** The button's slot in the button array. */
    function Index(): (r: nat)
      ensures r < ButtonCount
    {
      match this
      case Start => 0
      case Select => 1
      case Down => 2
      case Up => 3
      case Left => 4
      case Right => 5
      case A => 6
      case B => 7
    }
  }

  const ButtonCount: nat := 8

  datatype SelectedButtons = ActionButtons | DirectionButtons | NoButtons

  /** The action group, from bit 0 up. */
  const ActionGroup: seq<Button> := [A, B, Select, Start]

  /** The direction group, from bit 0 up. */
  const DirectionGroup: seq<Button> := [Right, Left, Up, Down]

  /** `set_byte`'s decoding: bit 5 selects the action group and takes precedence over bit 4, the direction group. */
  function Selection(b: bv8): (r: SelectedButtons)
    ensures r == ActionButtons <==> GetBit(b, 5)
    ensures r == DirectionButtons <==> !GetBit(b, 5) && GetBit(b, 4)
    ensures r == NoButtons <==> !GetBit(b, 5) && !GetBit(b, 4)
  {
    if GetBit(b, 5) then ActionButtons
    else if GetBit(b, 4) then DirectionButtons
    else NoButtons
  }

  /** `header` with bits 0..n-1 replaced, one by one, by the states of the group's first n buttons. */
  function WriteButtons(header: bv8, group: seq<Button>, buttons: seq<bool>, n: bv8): bv8
    requires |buttons| == ButtonCount && |group| == 4 && n <= 4
    decreases n
  {
    if n == 0 then header
    else ModifyBit(WriteButtons(header, group, buttons, n - 1), n - 1, buttons[group[n - 1].Index()])
  }

  /** After writing n buttons, bit j < n holds the j-th button and every higher bit is the header's. */
  lemma {:induction false} WriteButtonsBits(header: bv8, group: seq<Button>, buttons: seq<bool>, n: bv8, j: bv8)
    requires |buttons| == ButtonCount && |group| == 4 && n <= 4 && j < 8
    ensures GetBit(WriteButtons(header, group, buttons, n), j) ==
              if j < n then buttons[group[j].Index()] else GetBit(header, j)
  {
    if n > 0 {
      var before := WriteButtons(header, group, buttons, n - 1);
      var bit := n - 1;
      if j == bit {
        SetThenGet(before, bit, buttons[group[n - 1].Index()]);
      } else {
        WriteButtonsBits(header, group, buttons, n - 1, j);
        ModifyKeepsOtherBits(before, bit, buttons[group[n - 1].Index()], j);
      }
    }
  }

  /** The value `get_byte` reads for a selection and the eight button states. */
  function JoypadByte(selected: SelectedButtons, buttons: seq<bool>): bv8
    requires |buttons| == ButtonCount
  {
    match selected
    case ActionButtons => WriteButtons(ModifyBit(0, 5, true), ActionGroup, buttons, 4)
    case DirectionButtons => WriteButtons(ModifyBit(0, 4, true), DirectionGroup, buttons, 4)
    case NoButtons => 0
  }

  /** With the action group selected: bit 5 set, bits 4, 6, 7 clear, bits 0..3 are A, B, Select, Start. */
  lemma ActionByte(buttons: seq<bool>)
    requires |buttons| == ButtonCount
    ensures var r := JoypadByte(ActionButtons, buttons);
      GetBit(r, 5) && !GetBit(r, 4) && !GetBit(r, 6) && !GetBit(r, 7)
      && GetBit(r, 0) == buttons[A.Index()] && GetBit(r, 1) == buttons[B.Index()]
      && GetBit(r, 2) == buttons[Select.Index()] && GetBit(r, 3) == buttons[Start.Index()]
  {
    var header := ModifyBit(0, 5, true);
    assert header == 0x20;
    forall j: bv8 | j < 8
      ensures GetBit(JoypadByte(ActionButtons, buttons), j) ==
                if j < 4 then buttons[ActionGroup[j].Index()] else GetBit(header, j)
    {
      WriteButtonsBits(header, ActionGroup, buttons, 4, j);
    }
  }

  /** With the direction group selected: bit 4 set, bits 5, 6, 7 clear, bits 0..3 are Right, Left, Up, Down. */
  lemma DirectionByte(buttons: seq<bool>)
    requires |buttons| == ButtonCount
    ensures var r := JoypadByte(DirectionButtons, buttons);
      GetBit(r, 4) && !GetBit(r, 5) && !GetBit(r, 6) && !GetBit(r, 7)
      && GetBit(r, 0) == buttons[Right.Index()] && GetBit(r, 1) == buttons[Left.Index()]
      && GetBit(r, 2) == buttons[Up.Index()] && GetBit(r, 3) == buttons[Down.Index()]
  {
    var header := ModifyBit(0, 4, true);
    assert header == 0x10;
    forall j: bv8 | j < 8
      ensures GetBit(JoypadByte(DirectionButtons, buttons), j) ==
                if j < 4 then buttons[DirectionGroup[j].Index()] else GetBit(header, j)
    {
      WriteButtonsBits(header, DirectionGroup, buttons, 4, j);
    }
  }

  /** Buttons of the group that is not selected never show in the byte. */
  lemma {:induction false} UnselectedGroupIgnored(selected: SelectedButtons, buttons: seq<bool>, others: seq<bool>)
    requires |buttons| == ButtonCount && |others| == ButtonCount
    requires selected == ActionButtons ==> forall i :: 0 <= i < 4 ==> buttons[ActionGroup[i].Index()] == others[ActionGroup[i].Index()]
    requires selected == DirectionButtons ==> forall i :: 0 <= i < 4 ==> buttons[DirectionGroup[i].Index()] == others[DirectionGroup[i].Index()]
    ensures JoypadByte(selected, buttons) == JoypadByte(selected, others)
  {
    if selected != NoButtons {
      var group := if selected == ActionButtons then ActionGroup else DirectionGroup;
      var header: bv8 := if selected == ActionButtons then 0x20 else 0x10;
      forall j: bv8 | j < 8
        ensures GetBit(JoypadByte(selected, buttons), j) == GetBit(JoypadByte(selected, others), j)
      {
        WriteButtonsBits(header, group, buttons, 4, j);
        WriteButtonsBits(header, group, others, 4, j);
      }
      BitsDetermineByte(JoypadByte(selected, buttons), JoypadByte(selected, others));
    }
  }

  class Joypad {
    var buttons: array<bool>
    var selected: SelectedButtons

    predicate Valid()
      reads this
    {
      buttons.Length == ButtonCount
    }

    /** Nothing pressed and no group selected. */
    constructor ()
      ensures Valid() && fresh(buttons)
      ensures buttons[..] == seq(ButtonCount, _ => false) && selected == NoButtons
    {
      buttons := new bool[ButtonCount](_ => false);
      selected := NoButtons;
    }

    /** Builds the register value bit by bit from the selected group's buttons. */
    method GetByte() returns (b: bv8)
      requires Valid()
      ensures b == JoypadByte(selected, buttons[..])
      ensures selected == NoButtons ==> b == 0
    {
      var group: seq<Button>;
      match selected {
        case ActionButtons =>
          b := ModifyBit(0, 5, true);
          group := ActionGroup;
        case DirectionButtons =>
          b := ModifyBit(0, 4, true);
          group := DirectionGroup;
        case NoButtons =>
          return 0;
      }
      ghost var header := b;

      var bit: bv8 := 0;
      while bit < 4
        invariant bit <= 4 && |group| == 4
        invariant b == WriteButtons(header, group, buttons[..], bit)
      {
        b := ModifyBit(b, bit, GetButton(group[bit]));
        bit := bit + 1;
      }
    }

    /** Selects a group from bits 5 and 4 of the written byte; the buttons are not touched. */
    method SetByte(b: bv8)
      modifies this`selected
      ensures selected == Selection(b)
    {
      selected := if GetBit(b, 5) then ActionButtons
                  else if GetBit(b, 4) then DirectionButtons
                  else NoButtons;
    }

    function GetButton(button: Button): bool
      reads this, buttons
      requires Valid()
    {
      buttons[button.Index()]
    }

    /** Presses or releases one button; the other seven keep their state. */
    method SetButton(button: Button, value: bool)
      requires Valid()
      modifies buttons
      ensures buttons[..] == old(buttons[..])[button.Index() := value]
      ensures Valid() && GetButton(button) == value
      ensures forall other: Button :: other != button ==> GetButton(other) == old(GetButton(other))
    {
      buttons[button.Index()] := value;
    }
  }
}
