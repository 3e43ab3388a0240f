/**
 Splitting a text at a separator and joining pieces with it, as strings.Split
 and strings.Join do: they undo each other on pieces free of the separator.
 */
module Separated {

  predicate Clean(pieces: seq<string>, sep: char) {
    forall i :: 0 <= i < |pieces| ==> sep !in pieces[i]
  }

  /** Each piece preceded by the separator. */
  function Tail(pieces: seq<string>, sep: char): string {
    if pieces == [] then "" else [sep] + pieces[0] + Tail(pieces[1..], sep)
  }

  function Join(pieces: seq<string>, sep: char): string {
    if pieces == [] then "" else pieces[0] + Tail(pieces[1..], sep)
  }

  function Split(text: string, sep: char): (pieces: seq<string>)
    ensures pieces != []
  {
    if text == "" then [""]
    else if text[0] == sep then [""] + Split(text[1..], sep)
    else
      var rest := Split(text[1..], sep);
      [[text[0]] + rest[0]] + rest[1..]
  }

  lemma {:induction false} JoinOfSplit(text: string, sep: char)
    ensures Join(Split(text, sep), sep) == text && Clean(Split(text, sep), sep)
  {
    if text != "" {
      var rest := Split(text[1..], sep);
      JoinOfSplit(text[1..], sep);
      if text[0] == sep {
        assert ([""] + rest)[1..] == rest;
        assert Join(Split(text, sep), sep) == [sep] + (rest[0] + Tail(rest[1..], sep));
      } else {
        assert Join(Split(text, sep), sep) == [text[0]] + (rest[0] + Tail(rest[1..], sep));
      }
    }
  }

  /** A leading separator starts a new piece, any other leading character belongs to the first one. */
  lemma SplitOfFirst(c: char, text: string, sep: char)
    ensures Split([c] + text, sep) == if c == sep then [""] + Split(text, sep)
                                      else [[c] + Split(text, sep)[0]] + Split(text, sep)[1..]
  {
    assert ([c] + text)[1..] == text;
  }

  lemma JoinOfFirst(pieces: seq<string>, sep: char)
    requires pieces != []
    ensures pieces[0] != "" ==> Join(pieces, sep) == [pieces[0][0]] + Join([pieces[0][1..]] + pieces[1..], sep)
    ensures pieces[0] == "" && |pieces| > 1 ==> Join(pieces, sep) == [sep] + Join(pieces[1..], sep)
  {
    hide Tail;
    if pieces[0] != "" {
      assert pieces[0] == [pieces[0][0]] + pieces[0][1..];
      assert ([pieces[0][1..]] + pieces[1..])[1..] == pieces[1..];
    } else if |pieces| > 1 {
      TailIsJoin(pieces[1..], sep);
    }
  }

  lemma {:induction false} SplitOfJoin(pieces: seq<string>, sep: char)
    requires pieces != [] && Clean(pieces, sep)
    ensures Split(Join(pieces, sep), sep) == pieces
    decreases |pieces|, |pieces[0]|
  {
    JoinOfFirst(pieces, sep);
    if pieces[0] != "" {
      hide Join, Split;
      var shorter := [pieces[0][1..]] + pieces[1..];
      SplitOfJoin(shorter, sep);
      SplitOfFirst(pieces[0][0], Join(shorter, sep), sep);
      assert pieces[0] == [pieces[0][0]] + pieces[0][1..];
      assert pieces == [pieces[0]] + pieces[1..];
    } else if |pieces| > 1 {
      hide Join, Split;
      SplitOfJoin(pieces[1..], sep);
      SplitOfFirst(sep, Join(pieces[1..], sep), sep);
      assert pieces == [pieces[0]] + pieces[1..];
    } else {
      assert pieces == [""] && Join(pieces, sep) == "";
    }
  }

  /** The pieces of a text are the one way to cut it into parts free of the separator. */
  lemma SplitIsUnique(text: string, pieces: seq<string>, sep: char)
    requires pieces != [] && Clean(pieces, sep)
    ensures Join(pieces, sep) == text <==> pieces == Split(text, sep)
  {
    SplitOfJoin(pieces, sep);
    JoinOfSplit(text, sep);
  }

  lemma {:induction false} TailOfSum(a: seq<string>, b: seq<string>, sep: char)
    ensures Tail(a + b, sep) == Tail(a, sep) + Tail(b, sep)
  {
    if a == [] {
      assert a + b == b;
    } else {
      TailOfSum(a[1..], b, sep);
      assert (a + b)[1..] == a[1..] + b;
    }
  }

  /** Joining joins is joining all the pieces, as long as no group is empty. */
  lemma JoinOfSum(a: seq<string>, b: seq<string>, sep: char)
    requires a != [] && b != []
    ensures Join(a + b, sep) == Join(a, sep) + [sep] + Join(b, sep)
  {
    TailIsJoin(b, sep);
    TailOfSum(a[1..], b, sep);
    assert (a + b)[1..] == a[1..] + b;
    hide Tail;
    assert a[0] + (Tail(a[1..], sep) + ([sep] + Join(b, sep))) == a[0] + Tail(a[1..], sep) + [sep] + Join(b, sep);
  }

  lemma TailIsJoin(pieces: seq<string>, sep: char)
    requires pieces != []
    ensures Tail(pieces, sep) == [sep] + Join(pieces, sep)
  {
    assert [sep] + pieces[0] + Tail(pieces[1..], sep) == [sep] + (pieces[0] + Tail(pieces[1..], sep));
  }

  function Count(text: string, sep: char): nat {
    if text == "" then 0 else (if text[0] == sep then 1 else 0) + Count(text[1..], sep)
  }

  lemma {:induction false} SplitLength(text: string, sep: char)
    ensures |Split(text, sep)| == Count(text, sep) + 1
  {
    if text != "" {
      SplitLength(text[1..], sep);
    }
  }

  lemma {:induction false} CountOfSum(a: string, b: string, sep: char)
    ensures Count(a + b, sep) == Count(a, sep) + Count(b, sep)
  {
    if a == "" {
      assert a + b == b;
    } else {
      CountOfSum(a[1..], b, sep);
      assert (a + b)[1..] == a[1..] + b;
    }
  }

  lemma {:induction false} CountIsZero(text: string, sep: char)
    ensures Count(text, sep) == 0 <==> sep !in text
  {
    if text != "" {
      CountIsZero(text[1..], sep);
      assert text == [text[0]] + text[1..];
    }
  }
}
