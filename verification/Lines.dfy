/** Cutting a text that arrives in chunks into lines, and threading a line
    function through them. */
module Lines {
  import opened Unified

  /** `s.split('\n')`. */
  function SplitLines(s: string): (lines: seq<string>)
    ensures lines != []
  {
    if s == "" then [""] else
      var lines, c := SplitLines(s[..|s| - 1]), s[|s| - 1];
      if c == '\n' then lines + [""] else lines[..|lines| - 1] + [lines[|lines| - 1] + [c]]
  }

  function Last(lines: seq<string>): string
    requires lines != []
  {
    lines[|lines| - 1]
  }

  function AllButLast(lines: seq<string>): seq<string>
    requires lines != []
  {
    lines[..|lines| - 1]
  }

  function Concat(chunks: seq<string>): string {
    if chunks == [] then "" else Concat(chunks[..|chunks| - 1]) + chunks[|chunks| - 1]
  }

  function JoinLines(lines: seq<string>): string
    requires lines != []
  {
    if |lines| == 1 then lines[0] else JoinLines(AllButLast(lines)) + "\n" + Last(lines)
  }

  lemma JoinGrows(lines: seq<string>, c: char)
    requires lines != []
    ensures JoinLines(AllButLast(lines) + [Last(lines) + [c]]) == JoinLines(lines) + [c]
    ensures JoinLines(lines + [""]) == JoinLines(lines) + "\n"
  {
    assert AllButLast(AllButLast(lines) + [Last(lines) + [c]]) == AllButLast(lines);
    assert AllButLast(lines + [""]) == lines;
    assert JoinLines(lines) + "\n" + "" == JoinLines(lines) + "\n";
    if |lines| > 1 {
      var head := JoinLines(AllButLast(lines)) + "\n";
      assert head + (Last(lines) + [c]) == (head + Last(lines)) + [c];
    }
  }

  lemma {:induction false} JoinSplit(s: string)
    ensures JoinLines(SplitLines(s)) == s
  {
    if s != "" {
      var before, c := s[..|s| - 1], s[|s| - 1];
      JoinSplit(before);
      JoinGrows(SplitLines(before), c);
      assert s == before + [c];
    }
  }

  lemma {:induction false} NoBreakInLines(s: string, i: nat)
    requires i < |SplitLines(s)|
    ensures '\n' !in SplitLines(s)[i]
  {
    if s != "" {
      var lines, c := SplitLines(s[..|s| - 1]), s[|s| - 1];
      if i < |lines| {
        NoBreakInLines(s[..|s| - 1], i);
      }
    }
  }

  /** Splitting loses nothing, and no line holds a line break. */
  lemma {:induction false} JoinInvertsSplit(s: string)
    ensures JoinLines(SplitLines(s)) == s
    ensures forall i :: 0 <= i < |SplitLines(s)| ==> '\n' !in SplitLines(s)[i]
  {
    JoinSplit(s);
    forall i | 0 <= i < |SplitLines(s)| ensures '\n' !in SplitLines(s)[i] {
      NoBreakInLines(s, i);
    }
  }

  lemma {:induction false} SplitPlain(s: string)
    requires '\n' !in s
    ensures SplitLines(s) == [s]
  {
    if s != "" {
      SplitPlain(s[..|s| - 1]);
      assert s[|s| - 1] in s;
      assert s[..|s| - 1] + [s[|s| - 1]] == s;
    }
  }

  lemma SplitOneMore(s: string, c: char)
    ensures var lines := SplitLines(s);
            SplitLines(s + [c]) == if c == '\n' then lines + [""] else AllButLast(lines) + [Last(lines) + [c]]
  {
    assert (s + [c])[..|s|] == s;
  }

  lemma LastIsOneLine(s: string)
    ensures SplitLines(Last(SplitLines(s))) == [Last(SplitLines(s))]
  {
    NoBreakInLines(s, |SplitLines(s)| - 1);
    SplitPlain(Last(SplitLines(s)));
  }

  lemma SplitAppendOneMore(s: string, rest: string, whole: seq<string>, before: string, c: char)
    requires SplitLines(s + before) == whole + SplitLines(rest + before)
    ensures SplitLines(s + (before + [c])) == whole + SplitLines(rest + (before + [c]))
  {
    assert s + (before + [c]) == (s + before) + [c] && rest + (before + [c]) == (rest + before) + [c];
    SplitOneMore(s + before, c);
    SplitOneMore(rest + before, c);
    GrowLast(whole, SplitLines(rest + before), c);
  }

  /** What one more chunk does: whole lines so far stand, and the unfinished
      last line is split again together with the chunk. */
  lemma {:induction false} SplitAppend(s: string, chunk: string)
    ensures SplitLines(s + chunk) == AllButLast(SplitLines(s)) + SplitLines(Last(SplitLines(s)) + chunk)
  {
    var rest := Last(SplitLines(s));
    if chunk == "" {
      LastIsOneLine(s);
      assert s + chunk == s && rest + chunk == rest;
    } else {
      var before, c := chunk[..|chunk| - 1], chunk[|chunk| - 1];
      SplitAppend(s, before);
      assert chunk == before + [c];
      SplitAppendOneMore(s, rest, AllButLast(SplitLines(s)), before, c);
    }
  }

  lemma GrowLast(a: seq<string>, b: seq<string>, c: char)
    requires b != []
    ensures (a + b) + [""] == a + (b + [""])
    ensures AllButLast(a + b) + [Last(a + b) + [c]] == a + (AllButLast(b) + [Last(b) + [c]])
  {
  }

  // ---- Threading a line function ----

  /** A line function takes a state and a line to a state and some events. */
  type LineFunction<!S, E> = (S, string) -> (S, seq<E>)

  function Fold<S, E>(f: LineFunction<S, E>, s: S, lines: seq<string>): (S, seq<E>)
    decreases |lines|
  {
    if lines == [] then (s, []) else
      var (s1, events) := f(s, lines[0]);
      var (s2, more) := Fold(f, s1, lines[1..]);
      (s2, events + more)
  }

  lemma {:induction false} FoldAppend<S, E>(f: LineFunction<S, E>, s: S, a: seq<string>, b: seq<string>)
    ensures var (s1, events) := Fold(f, s, a);
            var (s2, more) := Fold(f, s1, b);
            Fold(f, s, a + b) == (s2, events + more)
    decreases |a|
  {
    if a == [] {
      assert a + b == b;
      var (s2, more) := Fold(f, s, b);
      assert [] + more == more;
    } else {
      assert (a + b)[0] == a[0] && (a + b)[1..] == a[1..] + b;
      var (s1, events) := f(s, a[0]);
      FoldAppend(f, s1, a[1..], b);
      var (s2, rest) := Fold(f, s1, a[1..]);
      var (s3, more) := Fold(f, s2, b);
      assert (events + rest) + more == events + (rest + more);
    }
  }

  /** A relation between the state and all events so far that every line keeps
      holds at the end. */
  lemma {:induction false} FoldKeeps<S(!new), E(!new)>(f: LineFunction<S, E>, inv: (S, seq<E>) -> bool, s: S,
                                                       lines: seq<string>, before: seq<E>)
    requires inv(s, before)
    requires forall t, line, es :: inv(t, es) ==> inv(f(t, line).0, es + f(t, line).1)
    ensures var (end, events) := Fold(f, s, lines); inv(end, before + events)
    decreases |lines|
  {
    if lines == [] {
      assert before + [] == before;
    } else {
      var (s1, events) := f(s, lines[0]);
      FoldKeeps(f, inv, s1, lines[1..], before + events);
      var (_, more) := Fold(f, s1, lines[1..]);
      assert before + (events + more) == (before + events) + more;
    }
  }

  /** State and events after the whole lines of a text: everything up to its
      last line break. */
  function FoldWhole<S, E>(f: LineFunction<S, E>, s: S, text: string): (S, seq<E>) {
    Fold(f, s, AllButLast(SplitLines(text)))
  }

  /** State and events after all lines of a text, the last one included. */
  function FoldText<S, E>(f: LineFunction<S, E>, s: S, text: string): (S, seq<E>) {
    Fold(f, s, SplitLines(text))
  }

  /** One round of a read loop: `text` was read, its unfinished last line is in
      the buffer, and `chunk` arrives. */
  lemma ReadAnother<S, E>(f: LineFunction<S, E>, s: S, text: string, chunk: string)
    ensures var buffer := Last(SplitLines(text)) + chunk;
            var (s1, events) := FoldWhole(f, s, text);
            var (s2, more) := Fold(f, s1, AllButLast(SplitLines(buffer)));
            && FoldWhole(f, s, text + chunk) == (s2, events + more)
            && Last(SplitLines(text + chunk)) == Last(SplitLines(buffer))
  {
    var buffer := Last(SplitLines(text)) + chunk;
    SplitAppend(text, chunk);
    FoldAppend(f, s, AllButLast(SplitLines(text)), AllButLast(SplitLines(buffer)));
    assert AllButLast(SplitLines(text + chunk)) == AllButLast(SplitLines(text)) + AllButLast(SplitLines(buffer));
  }

  lemma FoldOneMore<S, E>(f: LineFunction<S, E>, s: S, lines: seq<string>, line: string)
    ensures var (s1, events) := Fold(f, s, lines);
            var (s2, more) := f(s1, line);
            Fold(f, s, lines + [line]) == (s2, events + more)
  {
    FoldAppend(f, s, lines, [line]);
    var (s1, _) := Fold(f, s, lines);
    var (s2, more) := f(s1, line);
    assert [line][1..] == [];
    assert Fold(f, s1, [line]) == (s2, more + []);
    assert more + [] == more;
  }

  lemma ConcatOneMore(chunks: seq<string>, i: nat)
    requires i < |chunks|
    ensures Concat(chunks[..i + 1]) == Concat(chunks[..i]) + chunks[i]
  {
    assert chunks[..i + 1][..i] == chunks[..i];
  }

  lemma ReadLast<S, E>(f: LineFunction<S, E>, s: S, text: string)
    ensures var (s1, events) := FoldWhole(f, s, text);
            var (s2, more) := f(s1, Last(SplitLines(text)));
            FoldText(f, s, text) == (s2, events + more)
  {
    var lines := SplitLines(text);
    assert lines == AllButLast(lines) + [Last(lines)];
    FoldOneMore(f, s, AllButLast(lines), Last(lines));
  }

  method ProcessLines<S, E>(f: LineFunction<S, E>, start: S, lines: seq<string>) returns (state: S, events: seq<E>)
    ensures (state, events) == Fold(f, start, lines)
  {
    state, events := start, [];
    for i := 0 to |lines|
      invariant (state, events) == Fold(f, start, lines[..i])
    {
      FoldOneMore(f, start, lines[..i], lines[i]);
      assert lines[..i + 1] == lines[..i] + [lines[i]];
      var (s, some) := f(state, lines[i]);
      state, events := s, events + some;
    }
    assert lines[..|lines|] == lines;
  }

  /** The read loop the three stream parsers share: chunks are appended to a
      buffer, whole lines are cut off it and processed, and what is left at the
      end is processed unless blank. However the text was cut into chunks, the
      events are those of all its lines. */
  method ReadLines<S(!new), E>(f: LineFunction<S, E>, initial: S, chunks: seq<string>)
    returns (state: S, events: seq<E>)
    requires forall s, line :: Trim(line) == "" ==> f(s, line) == (s, [])
    ensures (state, events) == FoldText(f, initial, Concat(chunks))
  {
    var buffer := "";
    state, events := initial, [];
    for i := 0 to |chunks|
      invariant (state, events) == FoldWhole(f, initial, Concat(chunks[..i]))
      invariant buffer == Last(SplitLines(Concat(chunks[..i])))
    {
      ReadAnother(f, initial, Concat(chunks[..i]), chunks[i]);
      ConcatOneMore(chunks, i);
      buffer := buffer + chunks[i];
      var lines := AllButLast(SplitLines(buffer));
      buffer := Last(SplitLines(buffer));
      var more;
      state, more := ProcessLines(f, state, lines);
      events := events + more;
    }
    assert chunks[..|chunks|] == chunks;
    ReadLast(f, initial, Concat(chunks));
    if Trim(buffer) != "" {
      var (s, some) := f(state, buffer);
      state, events := s, events + some;
    } else {
      assert events + [] == events;
    }
  }

  /** What the lines of a text decode to, one line at most to one value. */
  function Decoded<E>(decode: string -> Option<E>, lines: seq<string>): seq<E>
    decreases |lines|
  {
    if lines == [] then [] else
      var value := decode(lines[0]);
      (if value.Some? then [value.value] else []) + Decoded(decode, lines[1..])
  }

  // ---- Trimming ----

  /** What `String.prototype.trim` removes. */
  predicate IsSpace(c: char) {
    || '\t' <= c <= '\r'
    || c == ' '
    || c == '\U{00A0}' || c == '\U{1680}' || '\U{2000}' <= c <= '\U{200A}'
    || c == '\U{2028}' || c == '\U{2029}' || c == '\U{202F}' || c == '\U{205F}' || c == '\U{3000}'
    || c == '\U{FEFF}'
  }

  function TrimStart(s: string): string {
    if s != "" && IsSpace(s[0]) then TrimStart(s[1..]) else s
  }

  function TrimEnd(s: string): string {
    if s != "" && IsSpace(s[|s| - 1]) then TrimEnd(s[..|s| - 1]) else s
  }

  function Trim(s: string): string {
    TrimEnd(TrimStart(s))
  }

  /** The payload of an SSE data line; None for blank lines, comments and all
      other fields. */
  function DataPayload(line: string): Option<string> {
    var trimmed := Trim(line);
    if trimmed == "" || trimmed[0] == ':' then None
    else if "data: " <= trimmed then Some(trimmed[6..])
    else None
  }

  ghost predicate Blank(s: string) {
    forall i :: 0 <= i < |s| ==> IsSpace(s[i])
  }

  lemma {:induction false} TrimStartIs(s: string) returns (before: string)
    ensures s == before + TrimStart(s) && Blank(before)
    ensures TrimStart(s) != "" ==> !IsSpace(TrimStart(s)[0])
  {
    if s != "" && IsSpace(s[0]) {
      var rest := TrimStartIs(s[1..]);
      before := [s[0]] + rest;
    } else {
      before := "";
    }
  }

  lemma {:induction false} TrimEndIs(s: string) returns (after: string)
    ensures s == TrimEnd(s) + after && Blank(after)
    ensures TrimEnd(s) != "" ==> !IsSpace(TrimEnd(s)[|TrimEnd(s)| - 1]) && TrimEnd(s)[0] == s[0]
  {
    if s != "" && IsSpace(s[|s| - 1]) {
      var rest := TrimEndIs(s[..|s| - 1]);
      after := rest + [s[|s| - 1]];
    } else {
      after := "";
    }
  }

  /** Trimming takes white space off both ends, and all of it. */
  lemma TrimIs(s: string) returns (before: string, after: string)
    ensures s == before + Trim(s) + after && Blank(before) && Blank(after)
    ensures Trim(s) != "" ==> !IsSpace(Trim(s)[0]) && !IsSpace(Trim(s)[|Trim(s)| - 1])
  {
    before := TrimStartIs(s);
    after := TrimEndIs(TrimStart(s));
  }

  lemma {:induction false} TrimStartThen(s: string, c: char)
    requires IsSpace(c)
    ensures TrimStart(s + [c]) == if TrimStart(s) == "" then "" else TrimStart(s) + [c]
  {
    if s == "" {
      assert [c][1..] == "";
    } else if IsSpace(s[0]) {
      assert (s + [c])[1..] == s[1..] + [c];
      TrimStartThen(s[1..], c);
    }
  }

  /** White space at either end makes no difference; so a line that ends in a
      carriage return reads like one that does not. */
  lemma TrimIgnores(s: string, c: char)
    requires c in {' ', '\t', '\r', '\n'}
    ensures Trim(s + [c]) == Trim(s) && Trim([c] + s) == Trim(s)
  {
    TrimStartThen(s, c);
    assert (TrimStart(s) + [c])[..|TrimStart(s)|] == TrimStart(s);
    assert ([c] + s)[1..] == s;
  }

  /** The payload of a line is what follows `data: `; no other line has one. */
  lemma PayloadIs(line: string, payload: string)
    ensures DataPayload(line) == Some(payload) <==> Trim(line) == "data: " + payload
  {
    if Trim(line) == "data: " + payload {
      assert Trim(line)[0] == 'd' && Trim(line)[..6] == "data: " && Trim(line)[6..] == payload;
    }
    if "data: " <= Trim(line) {
      assert Trim(line) == "data: " + Trim(line)[6..];
    }
  }
}
