/** The prettify-symbols switch and the string post-pass that turns the
    prover's non-breaking spaces back into tabs and spaces
    (client/src/prettify-symbols-mode.ts). */
module PrettifySymbolsMode {
  import opened Wrappers
  import opened AnnotatedText

  const Nbsp: char := '\U{00A0}'
  const FourNbsp: string := [Nbsp, Nbsp, Nbsp, Nbsp]

  predicate QuadAt(s: string, i: nat)
  {
    i + 4 <= |s| && s[i..i + 4] == FourNbsp
  }

  /** `.replace(/ {4}/, "\t")`: no global flag, so only the leftmost run
      of four non-breaking spaces becomes a tab. */
  function ReplaceFirstQuad(s: string): string
    decreases |s|
  {
    if QuadAt(s, 0) then "\t" + s[4..]
    else if s == [] then []
    else [s[0]] + ReplaceFirstQuad(s[1..])
  }

  /** `.replace(/ /g, " ")`. */
  function SpacesForNbsp(s: string): (r: string)
    ensures |r| == |s|
    ensures Nbsp !in r
    ensures forall i :: 0 <= i < |s| && s[i] != Nbsp ==> r[i] == s[i]
    ensures forall i :: 0 <= i < |s| && s[i] == Nbsp ==> r[i] == ' '
    ensures Nbsp !in s ==> r == s
  {
    seq(|s|, i requires 0 <= i < |s| => if s[i] == Nbsp then ' ' else s[i])
  }

  /** Index of the leftmost run of four non-breaking spaces, if any. */
  function FirstQuad(s: string): (r: Option<nat>)
    ensures r.Some? ==> QuadAt(s, r.value)
    decreases |s|
  {
    if QuadAt(s, 0) then Some(0)
    else if s == [] then None
    else match FirstQuad(s[1..])
      case None => None
      case Some(i) => assert s[1..][i..i + 4] == s[i + 1..i + 5]; Some(i + 1)
  }

  /** `FirstQuad` finds the leftmost run, and finds one whenever there is one. */
  lemma {:induction false} FirstQuadIsLeftmost(s: string)
    ensures FirstQuad(s).None? ==> forall i: nat :: !QuadAt(s, i)
    ensures FirstQuad(s).Some? ==> forall j: nat :: j < FirstQuad(s).value ==> !QuadAt(s, j)
    decreases |s|
  {
    if !QuadAt(s, 0) && s != [] {
      FirstQuadIsLeftmost(s[1..]);
      forall j: nat | 0 < j && QuadAt(s, j) ensures QuadAt(s[1..], j - 1) {
        assert s[1..][j - 1..j + 3] == s[j..j + 4];
      }
    }
  }

  /** The leftmost run of four non-breaking spaces becomes a tab and nothing
      else changes; without such a run the string is unchanged. */
  lemma {:induction false} ReplaceFirstQuadAt(s: string)
    ensures FirstQuad(s).None? ==> ReplaceFirstQuad(s) == s
    ensures FirstQuad(s).Some? ==>
      var i := FirstQuad(s).value; ReplaceFirstQuad(s) == s[..i] + "\t" + s[i + 4..]
    decreases |s|
  {
    if !QuadAt(s, 0) && s != [] {
      ReplaceFirstQuadAt(s[1..]);
      if FirstQuad(s[1..]).Some? {
        var i := FirstQuad(s[1..]).value;
        ConsAround(s, i, "\t");
      }
    }
  }

  lemma ConsAround<T>(s: seq<T>, i: nat, mid: seq<T>)
    requires 0 < |s| && i + 5 <= |s|
    ensures [s[0]] + (s[1..][..i] + mid + s[1..][i + 4..]) == s[..i + 1] + mid + s[i + 5..]
  {
    assert [s[0]] + s[1..][..i] == s[..i + 1];
    assert s[1..][i + 4..] == s[i + 5..];
  }

  /** The space pass works character by character. */
  lemma SpacesForNbspAppend(a: string, b: string)
    ensures SpacesForNbsp(a + b) == SpacesForNbsp(a) + SpacesForNbsp(b)
  {
    var r := SpacesForNbsp(a + b);
    var t := SpacesForNbsp(a) + SpacesForNbsp(b);
    forall k | 0 <= k < |r| ensures r[k] == t[k] {
      if k < |a| {
        assert (a + b)[k] == a[k];
      } else {
        assert (a + b)[k] == b[k - |a|];
      }
    }
  }

  /** The post-pass applied to a folded string. */
  function PrettyString(str: string): (r: string)
    ensures Nbsp !in r
  {
    SpacesForNbsp(ReplaceFirstQuad(str))
  }

  /** Without non-breaking spaces the post-pass returns its input unchanged. */
  lemma PrettyStringIdentity(str: string)
    requires Nbsp !in str
    ensures PrettyString(str) == str
  {
    ReplaceFirstQuadAt(str);
    forall i: nat ensures !QuadAt(str, i) {
      if i + 4 <= |str| {
        assert str[i..i + 4][0] == str[i];
      }
    }
  }

  /** The whole post-pass: the leftmost run of four becomes a tab and every
      other non-breaking space a single space. */
  lemma PrettyStringSpec(str: string)
    ensures FirstQuad(str).None? ==> PrettyString(str) == SpacesForNbsp(str)
    ensures FirstQuad(str).Some? ==>
      var i := FirstQuad(str).value;
      PrettyString(str) == SpacesForNbsp(str[..i]) + "\t" + SpacesForNbsp(str[i + 4..])
  {
    ReplaceFirstQuadAt(str);
    if FirstQuad(str).Some? {
      var i := FirstQuad(str).value;
      SpacesForNbspAppend(str[..i] + "\t", str[i + 4..]);
      SpacesForNbspAppend(str[..i], "\t");
    }
  }

  /** The module-level state: the `enabled` flag, and the values fired on
      the enabled-change event so far. */
  class PrettifySymbols {
    var enabled: bool
    var fired: seq<bool>

    /** Events fire only on a change, so they alternate, starting with
        `true` (the flag starts off), and the last one is the current flag. */
    ghost predicate Valid()
      reads this
    {
      && (fired == [] ==> !enabled)
      && (fired != [] ==> fired[0] && fired[|fired| - 1] == enabled)
      && (forall k :: 0 < k < |fired| ==> fired[k] != fired[k - 1])
    }

    constructor ()
      ensures Valid()
      ensures !enabled && fired == []
    {
      enabled := false;
      fired := [];
    }

    function IsEnabled(): (b: bool)
      reads this
    {
      enabled
    }

    /** Reporting the current value is a no-op; a new value is stored and
        fired exactly once. */
    method OnPrettifySymbolsModeEnabledChange(isEnabled: bool)
      requires Valid()
      modifies this
      ensures Valid()
      ensures enabled == isEnabled
      ensures old(enabled) == isEnabled ==> fired == old(fired)
      ensures old(enabled) != isEnabled ==> fired == old(fired) + [isEnabled]
    {
      if enabled == isEnabled {
        return;
      }
      enabled := isEnabled;
      fired := fired + [enabled];
    }

    /** `prettyTextToString`: the display fold when enabled, the plain fold
        otherwise, then the non-breaking-space post-pass. */
    function PrettyTextToString(txt: AnnotatedText): (r: string)
      reads this
      ensures Nbsp !in r
      ensures !enabled ==> r == PrettyString(TextToString(txt))
      ensures enabled ==> r == PrettyString(TextToString(Substituted(txt)))
      ensures NoSubstitutions(txt) ==> r == PrettyString(TextToString(txt))
    {
      DisplayIsPlainOfSubstituted(txt);
      assert NoSubstitutions(txt) ==> TextToDisplayString(txt) == TextToString(txt) by {
        if NoSubstitutions(txt) { DisplayEqualsPlainWithoutSubstitutions(txt); }
      }
      PrettyString(if enabled then TextToDisplayString(txt) else TextToString(txt))
    }
  }
}
