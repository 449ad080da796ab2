/**
 * `FlowsheetServer.canonical_flowsheet_name`: every character outside
 * `[a-zA-Z0-9-._]` becomes `-`, then every run of `-` shrinks to one `-`.
 */
module CanonicalName {

  /** The characters the first rewrite leaves alone: ASCII letters and digits, `-`, `.` and `_`. */
  predicate IsKept(c: char) {
    ('a' <= c <= 'z') || ('A' <= c <= 'Z') || ('0' <= c <= '9') || c == '-' || c == '.' || c == '_'
  }

  /** No two neighbouring characters are both `-`. */
  predicate NoDoubleDash(s: string) {
    forall i :: 0 <= i < |s| - 1 ==> !(s[i] == '-' && s[i + 1] == '-')
  }

  /** What a canonical flowsheet identifier looks like. */
  predicate IsCanonical(s: string) {
    (forall i :: 0 <= i < |s| ==> IsKept(s[i])) && NoDoubleDash(s)
  }

  /** The inner `re.sub(r"[^a-zA-Z0-9-._]", "-", name)`. */
  function DashReserved(s: string): (r: string)
    ensures |r| == |s|
    ensures forall i :: 0 <= i < |s| && IsKept(s[i]) ==> r[i] == s[i]
    ensures forall i :: 0 <= i < |s| && !IsKept(s[i]) ==> r[i] == '-'
    ensures forall i :: 0 <= i < |r| ==> IsKept(r[i])
    ensures (forall i :: 0 <= i < |s| ==> IsKept(s[i])) ==> r == s
  {
    seq(|s|, i requires 0 <= i < |s| => if IsKept(s[i]) then s[i] else '-')
  }

  /** The outer `re.sub(r"-+", "-", ...)`. */
  function CollapseDashes(s: string): (r: string)
    ensures |r| <= |s|
    ensures s != [] ==> r != [] && r[0] == s[0] && r[|r| - 1] == s[|s| - 1]
    ensures NoDoubleDash(r)
    ensures forall c :: c in r ==> c in s
    ensures NoDoubleDash(s) ==> r == s
    decreases |s|
  {
    if |s| <= 1 then s
    else if s[0] == '-' && s[1] == '-' then CollapseDashes(s[1..])
    else
      var rest := CollapseDashes(s[1..]);
      assert NoDoubleDash(s) ==> NoDoubleDash(s[1..]) by {
        if NoDoubleDash(s) {
          forall i | 0 <= i < |s[1..]| - 1 ensures !(s[1..][i] == '-' && s[1..][i + 1] == '-') {
            assert s[1..][i] == s[i + 1] && s[1..][i + 1] == s[i + 2];
          }
        }
      }
      var r := [s[0]] + rest;
      assert NoDoubleDash(r) by {
        forall i | 0 <= i < |r| - 1 ensures !(r[i] == '-' && r[i + 1] == '-') {
          if i > 0 {
            assert r[i] == rest[i - 1] && r[i + 1] == rest[i];
          }
        }
      }
      r
  }

  /** Read from the end, the second rewrite appends each character, except a `-` that
      follows a `-`: together with `CollapseDashes([]) == []` this fixes the result for
      every string, so each run of dashes leaves exactly one dash. */
  lemma {:induction false} CollapseDashesAppend(s: string, c: char)
    ensures CollapseDashes(s + [c]) ==
              if s != [] && c == '-' && s[|s| - 1] == '-' then CollapseDashes(s) else CollapseDashes(s) + [c]
    decreases |s|
  {
    if |s| >= 2 {
      assert (s + [c])[1..] == s[1..] + [c];
      CollapseDashesAppend(s[1..], c);
      if !(s[0] == '-' && s[1] == '-') {
        assert [s[0]] + (CollapseDashes(s[1..]) + [c]) == [s[0]] + CollapseDashes(s[1..]) + [c];
      }
    } else if |s| == 1 {
      assert (s + [c])[1..] == [c];
    }
  }

  /** `canonical_flowsheet_name(name)`. */
  function Canonical(name: string): (r: string)
    ensures IsCanonical(r)
    ensures |r| <= |name|
    ensures name == [] <==> r == []
  {
    var kept := DashReserved(name);
    var r := CollapseDashes(kept);
    assert forall i :: 0 <= i < |r| ==> IsKept(r[i]) by {
      forall i | 0 <= i < |r| ensures IsKept(r[i]) {
        assert r[i] in r;
        var j :| 0 <= j < |kept| && kept[j] == r[i];
      }
    }
    r
  }

  /** A name that is already canonical is left unchanged. */
  lemma CanonicalOfCanonical(s: string)
    requires IsCanonical(s)
    ensures Canonical(s) == s
  {
  }

  /** `canonical_flowsheet_name` returns its argument exactly when the argument is canonical,
      which is when `visualize` keeps the flowsheet's name instead of reporting a new one. */
  lemma CanonicalUnchangedIff(s: string)
    ensures Canonical(s) == s <==> IsCanonical(s)
  {
  }

  /** Canonicalising twice is canonicalising once. */
  lemma CanonicalIdempotent(s: string)
    ensures Canonical(Canonical(s)) == Canonical(s)
  {
  }

  /** The characters of `s` that survive both rewrites unchanged: kept ones other than `-`. */
  function Significant(s: string): (r: string)
    ensures |r| <= |s|
    decreases |s|
  {
    if s == [] then []
    else if IsKept(s[0]) && s[0] != '-' then [s[0]] + Significant(s[1..])
    else Significant(s[1..])
  }

  lemma {:induction false} SignificantOfDashReserved(s: string)
    ensures Significant(DashReserved(s)) == Significant(s)
    decreases |s|
  {
    if s != [] {
      SignificantOfDashReserved(s[1..]);
      assert DashReserved(s)[1..] == DashReserved(s[1..]);
    }
  }

  lemma {:induction false} SignificantOfCollapse(s: string)
    ensures Significant(CollapseDashes(s)) == Significant(s)
    decreases |s|
  {
    if |s| > 1 {
      SignificantOfCollapse(s[1..]);
      if !(s[0] == '-' && s[1] == '-') {
        assert ([s[0]] + CollapseDashes(s[1..]))[1..] == CollapseDashes(s[1..]);
      }
    }
  }

  /** Canonicalisation keeps every letter, digit, `.` and `_` of the name, in order, and
      introduces no other character than `-`. */
  lemma CanonicalKeepsSignificant(s: string)
    ensures Significant(Canonical(s)) == Significant(s)
  {
    SignificantOfDashReserved(s);
    SignificantOfCollapse(DashReserved(s));
  }

  /** Spaces, `/` and `*` become single dashes. */
  lemma CanonicalExampleSeparators()
    ensures Canonical("a b/c*d") == "a-b-c-d"
  {
    assert DashReserved("a b/c*d") == "a-b-c-d";
    CanonicalOfCanonical("a-b-c-d");
  }

  /** `~` is not kept: the regular expression leaves it out of the kept class. */
  lemma CanonicalExampleTilde()
    ensures Canonical("flow~sheet") == "flow-sheet"
  {
    assert DashReserved("flow~sheet") == "flow-sheet";
    CanonicalOfCanonical("flow-sheet");
  }

  /** A run of dashes becomes one dash. */
  lemma CanonicalExampleRun()
    ensures Canonical("a--b") == "a-b"
  {
    assert DashReserved("a--b") == "a--b";
    assert CollapseDashes("a--b") == "a" + CollapseDashes("--b");
    assert CollapseDashes("--b") == CollapseDashes("-b");
    assert NoDoubleDash("-b");
  }
}
