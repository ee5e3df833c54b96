/**
 * The light-mode button of the plant-pot screen. The screen keeps the mode
 * as a string and finds the next one by looking the current one up in the
 * list ["Auto", "On", "Off"]; a string not in the list has index -1 and so
 * is followed by "Auto". The datatype Mode is the explicit transition table
 * Auto -> On -> Off -> Auto that the lookup is proved to agree with.
 */
module LightModes {

  /** The cycle order, as the list the screen looks the mode up in. */
  const Modes: seq<string> := ["Auto", "On", "Off"]

  /** Array.prototype.indexOf: the first position of x in s, or -1. */
  function IndexOf(s: seq<string>, x: string): (i: int)
    ensures -1 <= i < |s|
    ensures i == -1 <==> x !in s
    ensures 0 <= i ==> s[i] == x && x !in s[..i]
  {
    if s == [] then -1
    else if s[0] == x then 0
    else
      var j := IndexOf(s[1..], x);
      if j == -1 then -1
      else
        assert s[..j + 1] == [s[0]] + s[1..][..j];
        j + 1
  }

  /** toggleLightMode's choice of the next mode. */
  function NextMode(mode: string): (next: string)
    ensures next in Modes
    ensures mode !in Modes ==> next == "Auto"
  {
    var i := IndexOf(Modes, mode);
    Modes[(i + 1) % |Modes|]
  }

  /** The three modes as values, with the transition table. */
  datatype Mode = Auto | On | Off {
    function Name(): (s: string)
      ensures s in Modes
    {
      match this
      case Auto => "Auto"
      case On => "On"
      case Off => "Off"
    }

    function Next(): Mode {
      match this
      case Auto => On
      case On => Off
      case Off => Auto
    }
  }

  /** The lookup by index gives the table's successor of one mode. */
  lemma NextModeAt(m: Mode)
    ensures NextMode(m.Name()) == m.Next().Name()
  {
  }

  /**
   * The lookup by index follows the transition table: on every mode of the
   * table, and for every string of the list, which names a mode of the table.
   */
  lemma NextModeFollowsTable()
    ensures forall m: Mode :: NextMode(m.Name()) == m.Next().Name()
    ensures forall s | s in Modes :: exists m: Mode :: m.Name() == s && NextMode(s) == m.Next().Name()
  {
    forall m: Mode
      ensures NextMode(m.Name()) == m.Next().Name()
    {
      NextModeAt(m);
    }
    forall s | s in Modes
      ensures exists m: Mode :: m.Name() == s && NextMode(s) == m.Next().Name()
    {
      var m := if s == "Auto" then Auto else if s == "On" then On else Off;
      assert m.Name() == s;
      NextModeAt(m);
    }
  }

  lemma NextModeSteps()
    ensures NextMode("Auto") == "On"
    ensures NextMode("On") == "Off"
    ensures NextMode("Off") == "Auto"
  {
  }

  /** Three presses of the button bring a known mode back. */
  lemma NextModeCycle(mode: string)
    requires mode in Modes
    ensures NextMode(NextMode(NextMode(mode))) == mode
  {
  }

  /** A mode outside the list is replaced by "Auto" and then cycles normally. */
  lemma NextModeUnknown(mode: string)
    requires mode !in Modes
    ensures NextMode(mode) == "Auto"
    ensures NextMode(NextMode(NextMode(mode))) == "Off"
  {
  }
}
