/**
 Fresh identifiers for session profiles: a slug of the name, numbered until it
 is not taken.
 Models nextProfileID in internal/app/service_sessions.go.
 */
module ProfileIds {
  import opened Text

  predicate SlugChar(c: char) {
    'a' <= c <= 'z' || '0' <= c <= '9'
  }

  /** Every run of other characters becomes one dash; `inRun` says whether one has just been written for the current run. */
  function Dashed(s: string, inRun: bool): string {
    if s == "" then ""
    else if SlugChar(s[0]) then [s[0]] + Dashed(s[1..], false)
    else (if inRun then "" else "-") + Dashed(s[1..], true)
  }

  function TrimDashesLeft(s: string): string {
    if s != "" && s[0] == '-' then TrimDashesLeft(s[1..]) else s
  }

  function TrimDashesRight(s: string): string {
    if s != "" && s[|s| - 1] == '-' then TrimDashesRight(s[..|s| - 1]) else s
  }

  function Base(name: string): string {
    var slug := TrimDashesRight(TrimDashesLeft(Dashed(ToLower(name), false)));
    if slug == "" then "session" else slug
  }

  predicate SingleDashes(s: string) {
    && (forall i :: 0 <= i < |s| ==> SlugChar(s[i]) || s[i] == '-')
    && (forall i :: 0 < i < |s| ==> SlugChar(s[i]) || SlugChar(s[i - 1]))
  }

  /** Lower-case letters and digits in groups separated by single dashes. */
  predicate IsSlug(s: string) {
    s != "" && SlugChar(s[0]) && SlugChar(s[|s| - 1]) && SingleDashes(s)
  }

  lemma {:induction false} DashedIsSingle(s: string, inRun: bool)
    ensures SingleDashes(Dashed(s, inRun)) && (inRun && Dashed(s, inRun) != "" ==> SlugChar(Dashed(s, inRun)[0]))
  {
    if s != "" {
      DashedIsSingle(s[1..], !SlugChar(s[0]));
    }
  }

  lemma {:induction false} TrimLeftKeeps(s: string)
    requires SingleDashes(s)
    ensures SingleDashes(TrimDashesLeft(s)) && (TrimDashesLeft(s) != "" ==> SlugChar(TrimDashesLeft(s)[0]))
  {
    if s != "" && s[0] == '-' {
      TrimLeftKeeps(s[1..]);
    }
  }

  lemma {:induction false} TrimRightKeeps(s: string)
    requires SingleDashes(s) && (s != "" ==> SlugChar(s[0]))
    ensures var t := TrimDashesRight(s); SingleDashes(t) && (t != "" ==> SlugChar(t[0]) && SlugChar(t[|t| - 1]))
  {
    if s != "" && s[|s| - 1] == '-' {
      TrimRightKeeps(s[..|s| - 1]);
    }
  }

  lemma BaseIsSlug(name: string)
    ensures IsSlug(Base(name))
  {
    hide ToLower, Dashed, TrimDashesLeft, TrimDashesRight;
    DashedIsSingle(ToLower(name), false);
    TrimLeftKeeps(Dashed(ToLower(name), false));
    TrimRightKeeps(TrimDashesLeft(Dashed(ToLower(name), false)));
  }

  lemma SlugIsLower(name: string)
    requires SingleDashes(name)
    ensures ToLower(name) == name
  {
    assert forall i :: 0 <= i < |name| ==> LowerChar(name[i]) == name[i];
  }

  /** A name that is already a slug is its own base. */
  lemma SlugIsItsOwnBase(name: string)
    requires IsSlug(name)
    ensures Base(name) == name
  {
    SlugIsLower(name);
    DashedOfSlug(name, false);
    assert name[0] != '-' && name[|name| - 1] != '-';
    hide ToLower, Dashed, SingleDashes, SlugChar;
  }

  lemma {:induction false} DashedOfSlug(s: string, inRun: bool)
    requires SingleDashes(s) && (inRun && s != "" ==> SlugChar(s[0]))
    ensures Dashed(s, inRun) == s
  {
    if s != "" {
      DashedOfSlug(s[1..], !SlugChar(s[0]));
    }
  }

  /** The letters and digits of a text, in order. */
  function Letters(s: string): string {
    if s == "" then "" else (if SlugChar(s[0]) then [s[0]] else "") + Letters(s[1..])
  }

  lemma {:induction false} DashedKeepsLetters(s: string, inRun: bool)
    ensures Letters(Dashed(s, inRun)) == Letters(s)
  {
    if s != "" {
      DashedKeepsLetters(s[1..], !SlugChar(s[0]));
      var rest := Dashed(s[1..], !SlugChar(s[0]));
      if SlugChar(s[0]) {
        assert ([s[0]] + rest)[1..] == rest;
      } else if !inRun {
        assert ("-" + rest)[1..] == rest;
      } else {
        assert "" + rest == rest;
      }
    }
  }

  lemma {:induction false} TrimLeftKeepsLetters(s: string)
    ensures Letters(TrimDashesLeft(s)) == Letters(s)
  {
    if s != "" && s[0] == '-' {
      TrimLeftKeepsLetters(s[1..]);
    }
  }

  lemma {:induction false} LettersOfSnoc(s: string, c: char)
    ensures Letters(s + [c]) == Letters(s) + if SlugChar(c) then [c] else ""
  {
    if s == "" {
      assert "" + [c] == [c] && [c][1..] == "";
    } else {
      LettersOfSnoc(s[1..], c);
      assert (s + [c])[1..] == s[1..] + [c];
    }
  }

  lemma {:induction false} TrimRightKeepsLetters(s: string)
    ensures Letters(TrimDashesRight(s)) == Letters(s)
  {
    if s != "" && s[|s| - 1] == '-' {
      TrimRightKeepsLetters(s[..|s| - 1]);
      LettersOfSnoc(s[..|s| - 1], '-');
      assert s[..|s| - 1] + ['-'] == s;
    }
  }

  /** The base has exactly the letters and digits of the name, in lower case and in order; a name without any gets "session". */
  lemma BaseKeepsLetters(name: string)
    ensures if Letters(ToLower(name)) == "" then Base(name) == "session" else Letters(Base(name)) == Letters(ToLower(name))
  {
    var dashed := Dashed(ToLower(name), false);
    var slug := TrimDashesRight(TrimDashesLeft(dashed));
    hide ToLower, Dashed, TrimDashesLeft, TrimDashesRight, SlugChar;
    DashedKeepsLetters(ToLower(name), false);
    TrimLeftKeepsLetters(dashed);
    TrimRightKeepsLetters(TrimDashesLeft(dashed));
    DashedIsSingle(ToLower(name), false);
    TrimLeftKeeps(dashed);
    TrimRightKeeps(TrimDashesLeft(dashed));
  }

  // -------------------------------------------------------------- numbering

  /** The k-th identifier tried. */
  function Candidate(base: string, k: nat): string {
    if k <= 1 then base else base + "-" + Decimal(k)
  }

  /** The first two identifiers tried after the base itself. */
  lemma NumberingStartsAtTwo(base: string)
    ensures Candidate(base, 2) == base + "-2" && Candidate(base, 3) == base + "-3"
  {
    assert Decimal(2) == "2" && Decimal(3) == "3";
  }

  lemma CandidatesDiffer(base: string, j: nat, k: nat)
    requires 1 <= j < k
    ensures Candidate(base, j) != Candidate(base, k)
  {
    hide Decimal;
    if j > 1 && Candidate(base, j) == Candidate(base, k) {
      NumberedIsInjective(base + "-", j, k);
    }
  }

  /** Pigeonhole: n candidates cannot all be taken by fewer than n profiles. */
  lemma {:induction false} TakenCandidates(base: string, taken: set<string>, n: nat)
    requires forall j :: 1 <= j <= n ==> Candidate(base, j) in taken
    ensures n <= |taken|
  {
    hide Candidate;
    if n > 0 {
      forall j | 1 <= j <= n - 1 ensures Candidate(base, j) in taken - {Candidate(base, n)} {
        CandidatesDiffer(base, j, n);
      }
      TakenCandidates(base, taken - {Candidate(base, n)}, n - 1);
    }
  }

  /** The first free candidate, found within one probe more than there are profiles. */
  method NextProfileID(profiles: set<string>, name: string) returns (id: string, ghost probes: nat)
    ensures id !in profiles
    ensures 1 <= probes <= |profiles| + 1 && id == Candidate(Base(name), probes)
    ensures forall j :: 1 <= j < probes ==> Candidate(Base(name), j) in profiles
  {
    hide Candidate, Base;
    var base := Base(name);
    var candidate, counter := base, 2;
    assert candidate == Candidate(base, 1) by { FirstCandidate(base); }
    while candidate in profiles
      invariant counter >= 2 && candidate == Candidate(base, counter - 1)
      invariant forall j :: 1 <= j < counter - 1 ==> Candidate(base, j) in profiles
      decreases |profiles| + 2 - counter
    {
      TakenCandidates(base, profiles, counter - 1);
      NextCandidate(base, counter);
      candidate := base + "-" + Decimal(counter);
      counter := counter + 1;
    }
    TakenCandidates(base, profiles, counter - 2);
    id, probes := candidate, counter - 1;
  }

  lemma FirstCandidate(base: string)
    ensures Candidate(base, 1) == base
  {
  }

  lemma NextCandidate(base: string, k: nat)
    requires k >= 2
    ensures Candidate(base, k) == base + "-" + Decimal(k)
  {
  }
}
