/**
 The file editor of the terminal UI: a list of lines with a (row, column)
 cursor, edited in place. It refines a flat text with one offset.
 Models startSFTPEditor, updateSFTPEditor and saveSFTPEditor in
 internal/tui/tui.go.
 */
module LineEditor {
  import opened Text
  import Separated

  // ------------------------------------------------------- lines and text

  predicate IsLine(s: string) {
    '\n' !in s
  }

  predicate Clean(lines: seq<string>) {
    Separated.Clean(lines, '\n')
  }

  /** Each line followed by a newline: the text before a row. */
  function Head(lines: seq<string>): string {
    if lines == [] then "" else Head(lines[..|lines| - 1]) + lines[|lines| - 1] + "\n"
  }

  /** Each line preceded by a newline: the text after a row. */
  function Tail(lines: seq<string>): string {
    Separated.Tail(lines, '\n')
  }

  function Join(lines: seq<string>): string {
    Separated.Join(lines, '\n')
  }

  function Split(text: string): (lines: seq<string>)
    ensures lines != []
  {
    Separated.Split(text, '\n')
  }

  lemma LinesAreTheSplit(text: string, lines: seq<string>)
    requires lines != [] && Clean(lines)
    ensures Join(lines) == text <==> lines == Split(text)
  {
    Separated.SplitIsUnique(text, lines, '\n');
  }

  lemma {:induction false} JoinAt(lines: seq<string>, row: nat)
    requires row < |lines|
    ensures Join(lines) == Head(lines[..row]) + lines[row] + Tail(lines[row + 1..])
  {
    if row > 0 {
      JoinAt(lines, row - 1);
      assert lines[..row][..row - 1] == lines[..row - 1];
      assert lines[row..][1..] == lines[row + 1..];
      calc {
        Join(lines);
        Head(lines[..row - 1]) + lines[row - 1] + ("\n" + lines[row] + Tail(lines[row + 1..]));
        Head(lines[..row]) + lines[row] + Tail(lines[row + 1..]);
      }
    }
  }

  // ------------------------------------------------------------- positions

  ghost predicate InBounds(lines: seq<string>, row: nat, col: nat) {
    row < |lines| && col <= |lines[row]|
  }

  ghost function Offset(lines: seq<string>, row: nat, col: nat): nat
    requires row < |lines|
  {
    |Head(lines[..row])| + col
  }

  lemma OffsetInText(lines: seq<string>, row: nat, col: nat)
    requires InBounds(lines, row, col)
    ensures Offset(lines, row, col) <= |Join(lines)|
    ensures Join(lines)[..Offset(lines, row, col)] == Head(lines[..row]) + lines[row][..col]
    ensures Join(lines)[Offset(lines, row, col)..] == lines[row][col..] + Tail(lines[row + 1..])
  {
    hide Head, Tail, Join;
    JoinAt(lines, row);
  }

  lemma {:induction false} HeadGrows(lines: seq<string>, r: nat, s: nat)
    requires r < s <= |lines|
    ensures |Head(lines[..r])| + |lines[r]| < |Head(lines[..s])|
  {
    assert lines[..s][..s - 1] == lines[..s - 1];
    if r < s - 1 {
      HeadGrows(lines, r, s - 1);
    }
  }

  lemma OffsetIsInjective(lines: seq<string>, r: nat, c: nat, s: nat, d: nat)
    requires InBounds(lines, r, c) && InBounds(lines, s, d)
    ensures Offset(lines, r, c) == Offset(lines, s, d) <==> r == s && c == d
  {
    hide Head;
    if r < s {
      HeadGrows(lines, r, s);
    } else if s < r {
      HeadGrows(lines, s, r);
    }
  }

  lemma {:induction false} OffsetIsSurjective(lines: seq<string>, at: nat) returns (row: nat, col: nat)
    requires lines != [] && at <= |Join(lines)|
    ensures InBounds(lines, row, col) && Offset(lines, row, col) == at
  {
    row, col := 0, 0;
    if at > 0 {
      row, col := OffsetIsSurjective(lines, at - 1);
      OffsetInText(lines, row, col);
      if col < |lines[row]| {
        col := col + 1;
      } else {
        assert row + 1 < |lines|;
        assert lines[..row + 1][..row] == lines[..row];
        row, col := row + 1, 0;
      }
    }
  }

  /** Cursor positions of a text and its offsets correspond one to one. */
  lemma PositionsAreOffsets(lines: seq<string>, at: nat)
    requires lines != []
    ensures at <= |Join(lines)| <==> exists row, col :: InBounds(lines, row, col) && Offset(lines, row, col) == at
    ensures forall r, c, s, d :: InBounds(lines, r, c) && InBounds(lines, s, d) && Offset(lines, r, c) == Offset(lines, s, d) ==> r == s && c == d
  {
    hide Join, Offset;
    forall row, col | InBounds(lines, row, col) ensures Offset(lines, row, col) <= |Join(lines)| {
      OffsetInText(lines, row, col);
    }
    forall r, c, s, d | InBounds(lines, r, c) && InBounds(lines, s, d) && Offset(lines, r, c) == Offset(lines, s, d)
      ensures r == s && c == d
    {
      OffsetIsInjective(lines, r, c, s, d);
    }
    if at <= |Join(lines)| {
      var row, col := OffsetIsSurjective(lines, at);
    }
  }

  // ----------------------------------------------------------- flat editor

  datatype KeyPress = Left | Right | Up | Down | Enter | Backspace | Delete | Runes(runes: string)

  datatype Buffer = Buffer(text: string, at: nat)

  /** Control characters are not typed. */
  function Printable(runes: string): string {
    if runes == "" then ""
    else Printable(runes[..|runes| - 1]) + (if runes[|runes| - 1] as int >= 32 then [runes[|runes| - 1]] else [])
  }

  function Insert(b: Buffer, s: string): Buffer
    requires b.at <= |b.text|
  {
    Buffer(b.text[..b.at] + s + b.text[b.at..], b.at + |s|)
  }

  /** Where the line around an offset starts. */
  function LineStart(text: string, at: nat): (r: nat)
    requires at <= |text|
    ensures r <= at
  {
    if at == 0 || text[at - 1] == '\n' then at else LineStart(text, at - 1)
  }

  /** Where the line around an offset ends. */
  function LineEnd(text: string, at: nat): (r: nat)
    requires at <= |text|
    ensures at <= r <= |text| && (r == |text| || text[r] == '\n')
    decreases |text| - at
  {
    if at == |text| || text[at] == '\n' then at else LineEnd(text, at + 1)
  }

  function Min(a: nat, b: nat): nat {
    if a < b then a else b
  }

  function Press(b: Buffer, key: KeyPress): (r: Buffer)
    requires b.at <= |b.text|
    ensures r.at <= |r.text|
  {
    match key
    case Left => if b.at > 0 then b.(at := b.at - 1) else b
    case Right => if b.at < |b.text| then b.(at := b.at + 1) else b
    case Enter => Insert(b, "\n")
    case Runes(runes) => Insert(b, Printable(runes))
    case Backspace => if b.at > 0 then Buffer(b.text[..b.at - 1] + b.text[b.at..], b.at - 1) else b
    case Delete => if b.at < |b.text| then b.(text := b.text[..b.at] + b.text[b.at + 1..]) else b
    case Up =>
      var start := LineStart(b.text, b.at);
      if start == 0 then b
      else
        var previous := LineStart(b.text, start - 1);
        b.(at := previous + Min(b.at - start, start - 1 - previous))
    case Down =>
      var start, end := LineStart(b.text, b.at), LineEnd(b.text, b.at);
      if end == |b.text| then b
      else b.(at := end + 1 + Min(b.at - start, LineEnd(b.text, end + 1) - (end + 1)))
  }

  function PressAll(b: Buffer, keys: seq<KeyPress>): (r: Buffer)
    requires b.at <= |b.text|
    ensures r.at <= |r.text|
  {
    if keys == [] then b else Press(PressAll(b, keys[..|keys| - 1]), keys[|keys| - 1])
  }

  // -------------------------------------------------------- laws of editing

  /** The characters a typing key puts into the text. */
  function Typed(keys: seq<KeyPress>): string {
    if keys == [] then ""
    else
      Typed(keys[..|keys| - 1]) +
      match keys[|keys| - 1]
      case Enter => "\n"
      case Runes(runes) => Printable(runes)
      case _ => ""
  }

  predicate Typing(keys: seq<KeyPress>) {
    forall i :: 0 <= i < |keys| ==> keys[i].Enter? || keys[i].Runes?
  }

  predicate Moving(keys: seq<KeyPress>) {
    forall i :: 0 <= i < |keys| ==> keys[i].Left? || keys[i].Right? || keys[i].Up? || keys[i].Down?
  }

  function Erase(n: nat): (keys: seq<KeyPress>)
    ensures |keys| == n && forall i :: 0 <= i < n ==> keys[i] == Backspace
  {
    seq(n, _ => Backspace)
  }

  lemma {:induction false} PressAllOfSum(b: Buffer, first: seq<KeyPress>, rest: seq<KeyPress>)
    requires b.at <= |b.text|
    ensures PressAll(b, first + rest) == PressAll(PressAll(b, first), rest)
  {
    hide Press;
    var n := |rest|;
    if n == 0 {
      assert first + rest == first;
    } else {
      PressAllOfSum(b, first, rest[..n - 1]);
      assert (first + rest)[..|first| + n - 1] == first + rest[..n - 1];
    }
  }

  lemma {:induction false} TypingInserts(b: Buffer, keys: seq<KeyPress>)
    requires b.at <= |b.text| && Typing(keys)
    ensures PressAll(b, keys) == Insert(b, Typed(keys))
  {
    if keys == [] {
      assert b.text == b.text[..b.at] + "" + b.text[b.at..];
    } else {
      var n := |keys| - 1;
      TypingInserts(b, keys[..n]);
      InsertTwice(b, Typed(keys[..n]), if keys[n].Enter? then "\n" else Printable(keys[n].runes));
    }
  }

  lemma InsertTwice(b: Buffer, s: string, t: string)
    requires b.at <= |b.text|
    ensures Insert(Insert(b, s), t) == Insert(b, s + t)
  {
    var left, right := b.text[..b.at], b.text[b.at..];
    assert Insert(b, s).text[..b.at + |s|] == left + s && Insert(b, s).text[b.at + |s|..] == right;
    assert left + s + t + right == left + (s + t) + right;
  }

  lemma BackspaceUndoesLast(b: Buffer, s: string)
    requires b.at <= |b.text| && s != ""
    ensures PressAll(Insert(b, s), [Backspace]) == Insert(b, s[..|s| - 1])
  {
    var n, left, right := |s| - 1, b.text[..b.at], b.text[b.at..];
    assert [Backspace][..0] == [];
    assert Insert(b, s).text == left + s + right;
    assert (left + s + right)[..b.at + n] == left + s[..n] && (left + s + right)[b.at + n + 1..] == right;
  }

  lemma {:induction false} EraseUndoesInsert(b: Buffer, s: string)
    requires b.at <= |b.text|
    ensures PressAll(Insert(b, s), Erase(|s|)) == b
    decreases |s|
  {
    if s == "" {
      assert b.text[..b.at] + s + b.text[b.at..] == b.text;
    } else {
      hide Press, Insert;
      assert Erase(|s|) == [Backspace] + Erase(|s| - 1);
      PressAllOfSum(Insert(b, s), [Backspace], Erase(|s| - 1));
      BackspaceUndoesLast(b, s);
      EraseUndoesInsert(b, s[..|s| - 1]);
    }
  }

  /** As many backspaces as characters were typed take back any typing, line breaks included. */
  lemma TypingIsErasable(b: Buffer, keys: seq<KeyPress>)
    requires b.at <= |b.text| && Typing(keys)
    ensures PressAll(b, keys + Erase(|Typed(keys)|)) == b
  {
    PressAllOfSum(b, keys, Erase(|Typed(keys)|));
    TypingInserts(b, keys);
    EraseUndoesInsert(b, Typed(keys));
  }

  /** Delete is backspace from one step to the right. */
  lemma DeleteIsRightBackspace(b: Buffer)
    requires b.at < |b.text|
    ensures Press(b, Delete) == Press(Press(b, Right), Backspace)
  {
  }

  /** Left and then right returns exactly when there is something to the left, or nothing at all. */
  lemma LeftThenRight(b: Buffer)
    requires b.at <= |b.text|
    ensures Press(Press(b, Left), Right) == b <==> b.at > 0 || b.text == ""
  {
  }

  function Lefts(n: nat): (keys: seq<KeyPress>)
    ensures |keys| == n && forall i :: 0 <= i < n ==> keys[i] == Left
  {
    seq(n, _ => Left)
  }

  /** Each left goes back one place, so every place before the cursor can be reached. */
  lemma {:induction false} LeftsGoBack(b: Buffer, n: nat)
    requires b.at <= |b.text| && n <= b.at
    ensures PressAll(b, Lefts(n)) == Buffer(b.text, b.at - n)
  {
    if n > 0 {
      LeftsGoBack(b, n - 1);
      assert Lefts(n)[..n - 1] == Lefts(n - 1);
    }
  }

  /** What is typed of a text: all of it exactly if it has no control character, and never one. */
  lemma {:induction false} PrintableExactly(runes: string)
    ensures |Printable(runes)| <= |runes| && forall i :: 0 <= i < |Printable(runes)| ==> Printable(runes)[i] as int >= 32
    ensures Printable(runes) == runes <==> forall i :: 0 <= i < |runes| ==> runes[i] as int >= 32
  {
    if runes != "" {
      var n := |runes| - 1;
      PrintableExactly(runes[..n]);
      if Printable(runes) == runes {
        assert Printable(runes)[|Printable(runes)| - 1] as int >= 32;
        assert runes[n] as int >= 32;
        assert Printable(runes)[..n] == Printable(runes[..n]);
      }
    }
  }

  /** And character by character the rest is kept, in order. */
  lemma {:induction false} PrintableOfSum(a: string, b: string)
    ensures Printable(a + b) == Printable(a) + Printable(b)
  {
    if b == "" {
      assert a + b == a;
    } else {
      var n := |b| - 1;
      PrintableOfSum(a, b[..n]);
      assert (a + b)[..|a + b| - 1] == a + b[..n];
    }
  }

  /** Moving never changes the text, so saving a file that was only looked at writes it back unchanged. */
  lemma {:induction false} MovingKeepsText(b: Buffer, keys: seq<KeyPress>)
    requires b.at <= |b.text| && Moving(keys)
    ensures PressAll(b, keys).text == b.text
  {
    if keys != [] {
      MovingKeepsText(b, keys[..|keys| - 1]);
    }
  }

  lemma {:induction false} SameLineStart(text: string, m: nat, at: nat)
    requires m <= at <= |text| && LineStart(text, at) <= m
    ensures LineStart(text, m) == LineStart(text, at)
    decreases at
  {
    if m < at {
      SameLineStart(text, m, at - 1);
    }
  }

  lemma {:induction false} SameLineEnd(text: string, at: nat, m: nat)
    requires at <= m && at <= |text| && m <= LineEnd(text, at)
    ensures LineEnd(text, m) == LineEnd(text, at)
    decreases m - at
  {
    if at < m {
      SameLineEnd(text, at + 1, m);
    }
  }

  lemma {:induction false} EndOfStart(text: string, end: nat)
    requires end < |text| && text[end] == '\n'
    ensures LineEnd(text, LineStart(text, end)) == end
  {
    StretchEnds(text, LineStart(text, end), end);
  }

  lemma {:induction false} StretchEnds(text: string, start: nat, end: nat)
    requires start <= end < |text| && text[end] == '\n' && LineStart(text, end) <= start
    ensures LineEnd(text, start) == end
    decreases end - start
  {
    if start < end {
      StretchEnds(text, start + 1, end);
      SameLineStart(text, start + 1, end);
    }
  }

  /** Up and then down returns to where it was, exactly when the line above is long enough for the column. */
  lemma UpThenDown(b: Buffer)
    requires b.at <= |b.text| && LineStart(b.text, b.at) > 0
    ensures var start := LineStart(b.text, b.at);
            Press(Press(b, Up), Down) == b <==> b.at - start <= start - 1 - LineStart(b.text, start - 1)
  {
    var start := LineStart(b.text, b.at);
    StartFollowsNewline(b.text, b.at);
    var previous := LineStart(b.text, start - 1);
    var up := Press(b, Up);
    SameLineStart(b.text, up.at, start - 1);
    EndOfStart(b.text, start - 1);
    SameLineEnd(b.text, previous, up.at);
    ReachesEnd(b.text, b.at);
  }

  lemma {:induction false} StartFollowsNewline(text: string, at: nat)
    requires at <= |text| && LineStart(text, at) > 0
    ensures text[LineStart(text, at) - 1] == '\n'
  {
    if at > 0 && text[at - 1] != '\n' {
      StartFollowsNewline(text, at - 1);
    }
  }

  lemma {:induction false} ReachesEnd(text: string, at: nat)
    requires at <= |text|
    ensures at <= LineEnd(text, LineStart(text, at))
    decreases at
  {
    if at > 0 && text[at - 1] != '\n' {
      ReachesEnd(text, at - 1);
      SameLineEnd(text, LineStart(text, at), at - 1);
    }
  }

  // ---------------------------------------------------------- edits of lines

  /** Replacing columns `a` to `b` of a row replaces the same stretch of the text. */
  lemma EditRow(lines: seq<string>, row: nat, a: nat, b: nat, s: string)
    requires row < |lines| && a <= b <= |lines[row]|
    ensures var edited := lines[row := lines[row][..a] + s + lines[row][b..]];
            && Offset(lines, row, a) <= Offset(lines, row, b) <= |Join(lines)|
            && Join(edited) == Join(lines)[..Offset(lines, row, a)] + s + Join(lines)[Offset(lines, row, b)..]
            && forall c: nat :: Offset(edited, row, c) == Offset(lines, row, c)
  {
    hide Head, Tail, Join;
    var edited := lines[row := lines[row][..a] + s + lines[row][b..]];
    assert edited[..row] == lines[..row] && edited[row + 1..] == lines[row + 1..];
    JoinAt(edited, row);
    OffsetInText(lines, row, a);
    OffsetInText(lines, row, b);
  }

  /** Breaking a row in two puts a newline between its parts; joining two rows removes it. */
  lemma BreakRow(lines: seq<string>, row: nat, left: string, right: string)
    requires row < |lines| && lines[row] == left + right
    ensures var broken := lines[..row] + [left, right] + lines[row + 1..];
            && Join(broken) == Head(lines[..row]) + left + "\n" + right + Tail(lines[row + 1..])
            && Offset(broken, row, |left|) == Offset(lines, row, |left|)
            && Offset(broken, row + 1, 0) == Offset(lines, row, |left|) + 1
  {
    hide Tail, Join;
    var broken := lines[..row] + [left, right] + lines[row + 1..];
    JoinAt(broken, row + 1);
    assert broken[..row] == lines[..row];
    assert broken[..row + 1] == lines[..row] + [left];
    assert (lines[..row] + [left])[..row] == lines[..row];
    assert broken[row + 2..] == lines[row + 1..];
  }

  lemma {:induction false} RowStart(lines: seq<string>, row: nat, col: nat)
    requires InBounds(lines, row, col) && Clean(lines)
    ensures Offset(lines, row, col) <= |Join(lines)|
    ensures LineStart(Join(lines), Offset(lines, row, col)) == Offset(lines, row, 0)
    decreases col
  {
    hide Tail, Join;
    OffsetInText(lines, row, col);
    var text, at := Join(lines), Offset(lines, row, col);
    if col > 0 {
      RowStart(lines, row, col - 1);
      assert text[at - 1] == text[..at][at - 1] == lines[row][col - 1];
    } else if row > 0 {
      assert lines[..row][row - 1] == lines[row - 1];
      assert text[at - 1] == text[..at][at - 1] == '\n';
    }
  }

  lemma {:induction false} RowEnd(lines: seq<string>, row: nat, col: nat)
    requires InBounds(lines, row, col) && Clean(lines)
    ensures Offset(lines, row, col) <= |Join(lines)|
    ensures LineEnd(Join(lines), Offset(lines, row, col)) == Offset(lines, row, |lines[row]|)
    ensures Offset(lines, row, |lines[row]|) == |Join(lines)| <==> row + 1 == |lines|
    decreases |lines[row]| - col
  {
    hide Head, Join;
    OffsetInText(lines, row, col);
    var text, at := Join(lines), Offset(lines, row, col);
    if col < |lines[row]| {
      RowEnd(lines, row, col + 1);
      assert text[at] == text[at..][0] == lines[row][col];
    } else {
      assert text[at..] == Tail(lines[row + 1..]);
      if row + 1 < |lines| {
        assert text[at] == text[at..][0] == '\n';
      }
    }
  }

  lemma NextRowStarts(lines: seq<string>, row: nat)
    requires row + 1 < |lines|
    ensures Offset(lines, row + 1, 0) == Offset(lines, row, |lines[row]|) + 1
  {
    assert lines[..row + 1][..row] == lines[..row];
  }

  /** Joining a row with the next removes the newline between them. */
  lemma MergeRows(before: seq<string>, row: nat)
    requires row + 1 < |before|
    ensures var lines := before[..row] + [before[row] + before[row + 1]] + before[row + 2..];
            var at := Offset(before, row, |before[row]|);
            && at < |Join(before)|
            && Join(lines) == Join(before)[..at] + Join(before)[at + 1..]
            && Offset(lines, row, |before[row]|) == at
  {
    hide Head, Tail, Join;
    var lines := before[..row] + [before[row] + before[row + 1]] + before[row + 2..];
    assert lines[..row] == before[..row] && lines[row + 1..] == before[row + 2..];
    assert lines[row] == before[row] + before[row + 1];
    OffsetInText(before, row, |before[row]|);
    NextRowStarts(before, row);
    OffsetInText(before, row + 1, 0);
    JoinAt(lines, row);
    var at := Offset(before, row, |before[row]|);
    assert Join(before)[..at] == Head(before[..row]) + before[row];
    assert Join(before)[at + 1..] == before[row + 1] + Tail(before[row + 2..]);
  }

  // ----------------------------------------------------------------- editor

  class SftpEditor {
    var editing: bool
    var path: string
    var lines: seq<string>
    var row: nat
    var col: nat

    ghost predicate Valid()
      reads this
    {
      Clean(lines) && InBounds(lines, row, col)
    }

    /** The flat text and offset the lines and cursor stand for. */
    ghost function Flat(): (b: Buffer)
      reads this
      requires Valid()
      ensures b.at <= |b.text|
    {
      OffsetInText(lines, row, col);
      Buffer(Join(lines), Offset(lines, row, col))
    }

    constructor (path: string)
      ensures this.path == path && !editing && lines == []
    {
      this.path, editing, lines, row, col := path, false, [], 0, 0;
    }

    method StartSFTPEditor(content: string)
      modifies this
      ensures Valid() && editing && path == old(path)
      ensures Flat() == Buffer(content, 0)
    {
      editing := true;
      lines := SplitLines(content);
      row, col := 0, 0;
      Separated.JoinOfSplit(content, '\n');
    }

    static method SplitLines(text: string) returns (lines: seq<string>)
      ensures lines == Split(text)
    {
      hide Join;
      var start := 0;
      lines := [];
      for i := 0 to |text|
        invariant start <= i && Clean(lines) && Head(lines) == text[..start]
        invariant IsLine(text[start..i])
      {
        if text[i] == '\n' {
          var line := text[start..i];
          assert (lines + [line])[..|lines|] == lines;
          assert text[..start] + line + "\n" == text[..i + 1];
          lines := lines + [line];
          start := i + 1;
        }
      }
      ghost var before := lines;
      lines := lines + [text[start..]];
      JoinAt(lines, |before|);
      assert lines[..|before|] == before;
      LinesAreTheSplit(text, lines);
    }

    method JoinLines() returns (content: string)
      requires Valid()
      ensures content == Flat().text
    {
      content := lines[0];
      for i := 1 to |lines|
        invariant content + Tail(lines[i..]) == Join(lines)
      {
        assert lines[i..][1..] == lines[i + 1..];
        content := content + "\n" + lines[i];
      }
    }

    /** What is handed to the backend, if saving is available. */
    method SaveSFTPEditor(available: bool) returns (content: Option<string>)
      requires Valid()
      ensures content == if available && Trim(path) != "" then Some(Flat().text) else None
    {
      if !available || Trim(path) == "" {
        return None;
      }
      var text := JoinLines();
      return Some(text);
    }

    /** Escape leaves the editor and drops the lines. */
    method Escape()
      modifies this
      ensures !editing && lines == [] && path == ""
    {
      editing, lines, path := false, [], "";
    }

    method MoveLeft()
      requires Valid()
      modifies `row, `col
      ensures Valid() && Flat() == Press(old(Flat()), Left)
    {
      hide Head, Tail, Join;
      OffsetInText(lines, row, col);
      if col > 0 {
        col := col - 1;
      } else if row > 0 {
        NextRowStarts(lines, row - 1);
        row := row - 1;
        col := |lines[row]|;
      } else {
        assert lines[..0] == [];
        assert Offset(lines, 0, 0) == 0 by { EmptyHead(); }
      }
    }

    static lemma EmptyHead()
      ensures Head([]) == ""
    {
    }

    method MoveRight()
      requires Valid()
      modifies `row, `col
      ensures Valid() && Flat() == Press(old(Flat()), Right)
    {
      hide Head, Tail, Join, LineEnd;
      OffsetInText(lines, row, col);
      RowEnd(lines, row, col);
      if col < |lines[row]| {
        OffsetInText(lines, row, col + 1);
        col := col + 1;
      } else if row + 1 < |lines| {
        NextRowStarts(lines, row);
        OffsetInText(lines, row + 1, 0);
        row := row + 1;
        col := 0;
      }
    }

    method MoveUp()
      requires Valid()
      modifies `row, `col
      ensures Valid() && Flat() == Press(old(Flat()), Up)
    {
      hide Head, Tail, Join, LineStart;
      OffsetInText(lines, row, col);
      RowStart(lines, row, col);
      if row > 0 {
        NextRowStarts(lines, row - 1);
        RowStart(lines, row - 1, |lines[row - 1]|);
        row := row - 1;
        if col > |lines[row]| {
          col := |lines[row]|;
        }
      } else {
        assert lines[..0] == [];
        EmptyHead();
      }
    }

    method MoveDown()
      requires Valid()
      modifies `row, `col
      ensures Valid() && Flat() == Press(old(Flat()), Down)
    {
      hide Head, Tail, Join, LineStart, LineEnd;
      OffsetInText(lines, row, col);
      RowStart(lines, row, col);
      RowEnd(lines, row, col);
      if row + 1 < |lines| {
        NextRowStarts(lines, row);
        RowEnd(lines, row + 1, 0);
        row := row + 1;
        if col > |lines[row]| {
          col := |lines[row]|;
        }
      }
    }

    method PressEnter()
      requires Valid()
      modifies `lines, `row, `col
      ensures Valid() && Flat() == Press(old(Flat()), Enter)
    {
      hide Head, Tail, Join;
      ghost var before := lines;
      OffsetInText(lines, row, col);
      var left, right := lines[row][..col], lines[row][col..];
      BreakRow(lines, row, left, right);
      lines := lines[row := left];
      lines := lines + [""];
      lines := lines[..row + 1] + lines[row..|lines| - 1];
      lines := lines[row + 1 := right];
      assert lines == before[..row] + [left, right] + before[row + 1..];
      row, col := row + 1, 0;
    }

    method PressBackspace()
      requires Valid()
      modifies `lines, `row, `col
      ensures Valid() && Flat() == Press(old(Flat()), Backspace)
    {
      hide Head, Tail, Join;
      ghost var before := lines;
      OffsetInText(lines, row, col);
      if col > 0 {
        EditRow(lines, row, col - 1, col, "");
        assert lines[row][..col - 1] + "" + lines[row][col..] == lines[row][..col - 1] + lines[row][col..];
        lines := lines[row := lines[row][..col - 1] + lines[row][col..]];
        col := col - 1;
      } else if row > 0 {
        NextRowStarts(lines, row - 1);
        MergeRows(lines, row - 1);
        col := |lines[row - 1]|;
        lines := lines[row - 1 := lines[row - 1] + lines[row]];
        lines := lines[..row] + lines[row + 1..];
        row := row - 1;
        assert lines == before[..row] + [before[row] + before[row + 1]] + before[row + 2..];
      } else {
        assert lines[..0] == [];
        EmptyHead();
      }
    }

    method PressDelete()
      requires Valid()
      modifies `lines
      ensures Valid() && Flat() == Press(old(Flat()), Delete)
    {
      hide Head, Tail, Join, LineEnd;
      ghost var before := lines;
      var line := lines[row];
      OffsetInText(lines, row, col);
      RowEnd(lines, row, col);
      if col < |line| {
        EditRow(lines, row, col, col + 1, "");
        assert line[..col] + "" + line[col + 1..] == line[..col] + line[col + 1..];
        lines := lines[row := line[..col] + line[col + 1..]];
      } else if row + 1 < |lines| {
        MergeRows(lines, row);
        lines := lines[row := lines[row] + lines[row + 1]];
        lines := lines[..row + 1] + lines[row + 2..];
        assert lines == before[..row] + [before[row] + before[row + 1]] + before[row + 2..];
      }
    }

    /** Growing a line by one, shifting what follows the cursor and writing at the cursor inserts there. */
    static lemma Shift(line: string, left: string, right: string, r: char)
      requires line == left + right
      ensures var grown := line + ['\0'];
              (grown[..|left| + 1] + grown[|left|..|grown| - 1])[|left| := r] == left + [r] + right
    {
    }

    /** The line with the printable runes put in one by one at a moving column. */
    static method InsertRunes(line: string, at: nat, runes: string) returns (grown: string, col: nat)
      requires at <= |line| && IsLine(line)
      ensures grown == line[..at] + Printable(runes) + line[at..] && col == at + |Printable(runes)| && IsLine(grown)
    {
      ghost var left, right := line[..at], line[at..];
      grown, col := line, at;
      assert left + Printable(runes[..0]) + right == line;
      hide Printable, IsLine;
      PrintableIsLine(runes);
      for i := 0 to |runes|
        invariant grown == left + Printable(runes[..i]) + right && col == |left + Printable(runes[..i])|
      {
        PrintableMore(runes, i);
        if runes[i] as int >= 32 {
          Shift(grown, left + Printable(runes[..i]), right, runes[i]);
          grown := grown + ['\0'];
          grown := grown[..col + 1] + grown[col..|grown| - 1];
          grown := grown[col := runes[i]];
          col := col + 1;
        }
      }
      assert runes[..|runes|] == runes;
      LinesJoin(line, at, Printable(runes));
    }

    static lemma LinesJoin(line: string, at: nat, s: string)
      requires at <= |line| && IsLine(line) && IsLine(s)
      ensures IsLine(line[..at] + s + line[at..])
    {
    }

    static lemma PrintableMore(runes: string, i: nat)
      requires i < |runes|
      ensures Printable(runes[..i + 1]) == Printable(runes[..i]) + (if runes[i] as int >= 32 then [runes[i]] else [])
    {
      assert runes[..i + 1][..i] == runes[..i];
    }

    static lemma {:induction false} PrintableIsLine(runes: string)
      ensures IsLine(Printable(runes))
    {
      if runes != "" {
        PrintableIsLine(runes[..|runes| - 1]);
      }
    }

    method TypeRunes(runes: string)
      requires Valid()
      modifies `lines, `col
      ensures Valid() && Flat() == Press(old(Flat()), Runes(runes))
    {
      hide Head, Tail, Join, Printable;
      EditRow(lines, row, col, col, Printable(runes));
      var line, at := InsertRunes(lines[row], col, runes);
      lines := lines[row := line];
      col := at;
    }

    method Update(key: KeyPress)
      requires Valid()
      modifies `lines, `row, `col
      ensures Valid() && Flat() == Press(old(Flat()), key)
    {
      hide Press, Join, Offset;
      match key
      case Left => MoveLeft();
      case Right => MoveRight();
      case Up => MoveUp();
      case Down => MoveDown();
      case Enter => PressEnter();
      case Backspace => PressBackspace();
      case Delete => PressDelete();
      case Runes(runes) => TypeRunes(runes);
    }

    /** Any sequence of keys: the cursor stays in bounds and the lines follow the flat text. */
    method UpdateAll(keys: seq<KeyPress>)
      requires Valid()
      modifies `lines, `row, `col
      ensures Valid() && Flat() == PressAll(old(Flat()), keys) && lines == Split(Flat().text)
    {
      hide Press, Join, Offset;
      for i := 0 to |keys|
        invariant Valid() && Flat() == PressAll(old(Flat()), keys[..i])
      {
        assert keys[..i + 1][..i] == keys[..i];
        Update(keys[i]);
      }
      assert keys[..|keys|] == keys;
      LinesAreTheSplit(Flat().text, lines);
    }
  }
}
