/** Which controls a device profile shows (src/config/visibility.ts). */
module Visibility {
  import opened Wrappers
  import opened PedalConfig
  import opened Seqs

  /** `!c.hidden`: only an explicit `true` hides a control. */
  predicate Visible(c: Control) {
    c.hidden != Some(true)
  }

  /** `controls.filter(c => !c.hidden)` */
  function VisibleOnly(controls: seq<Control>): (r: seq<Control>)
    ensures |r| <= |controls|
    ensures forall c :: c in r <==> c in controls && Visible(c)
  {
    if controls == [] then []
    else if Visible(controls[0]) then [controls[0]] + VisibleOnly(controls[1..])
    else VisibleOnly(controls[1..])
  }

  /** `getVisibleControls(cfg)`; an absent profile has no visible controls. */
  function GetVisibleControls(cfg: Option<Profile>): (r: seq<Control>)
    ensures cfg.None? ==> r == []
    ensures cfg.Some? ==> forall c :: c in r <==> c in cfg.value.controls && Visible(c)
  {
    if cfg.None? then [] else VisibleOnly(cfg.value.controls)
  }

  /** The visible controls keep their relative order and each occurs as often as in the profile. */
  lemma {:induction false} VisibleOnlyKeepsOrder(controls: seq<Control>)
    ensures IsSubsequence(VisibleOnly(controls), controls)
    ensures forall c :: multiset(VisibleOnly(controls))[c]
                     == (if Visible(c) then multiset(controls)[c] else 0)
  {
    if controls != [] {
      VisibleOnlyKeepsOrder(controls[1..]);
      assert controls == [controls[0]] + controls[1..];
      var rest := VisibleOnly(controls[1..]);
      if Visible(controls[0]) {
        assert VisibleOnly(controls) == [controls[0]] + rest;
        assert VisibleOnly(controls)[1..] == rest;
      } else {
        SubsequenceOfTail(rest, controls);
      }
    }
  }

  /** Filtering the visible controls again changes nothing. */
  lemma {:induction false} VisibleOnlyIdempotent(controls: seq<Control>)
    ensures VisibleOnly(VisibleOnly(controls)) == VisibleOnly(controls)
  {
    if controls != [] {
      VisibleOnlyIdempotent(controls[1..]);
      if Visible(controls[0]) {
        var r := VisibleOnly(controls);
        assert r[0] == controls[0] && r[1..] == VisibleOnly(controls[1..]);
      }
    }
  }
}
