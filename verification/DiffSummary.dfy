/** The accepted-line summariser of the analytics crate: it scans a git unified diff line by line,
    counts the added and deleted lines and fingerprints the effective added lines.

    The theorem `SummaryOfRenderedDiff` is about every list of file patches written out as git writes
    them; `RecordedPathIsOwnPath` says exactly when the path recorded for a file is that file's path. */
module DiffSummary {
  import opened Options
  import Utf8

  // ---------------------------------------------------------------- characters and lines

  /** The Unicode White_Space property, which `trim` and `split_whitespace` use. */
  predicate IsWhitespace(c: char) {
    || '\U{0009}' <= c <= '\U{000D}'
    || c == ' '
    || c == '\U{0085}'
    || c == '\U{00A0}'
    || c == '\U{1680}'
    || '\U{2000}' <= c <= '\U{200A}'
    || c == '\U{2028}' || c == '\U{2029}' || c == '\U{202F}' || c == '\U{205F}' || c == '\U{3000}'
  }

  predicate AllWhitespace(s: string) {
    forall i | 0 <= i < |s| :: IsWhitespace(s[i])
  }

  function TrimStart(s: string): string {
    if s != [] && IsWhitespace(s[0]) then TrimStart(s[1..]) else s
  }

  function TrimEnd(s: string): string {
    if s != [] && IsWhitespace(s[|s| - 1]) then TrimEnd(s[..|s| - 1]) else s
  }

  function Trim(s: string): string {
    TrimEnd(TrimStart(s))
  }

  predicate EndsInWhitespace(s: string) {
    s != [] && IsWhitespace(s[|s| - 1])
  }

  /** Drops the carriage return of a `\r\n` line ending. */
  function StripCarriageReturn(line: string): string {
    if line != [] && line[|line| - 1] == '\r' then line[..|line| - 1] else line
  }

  /** The position of the first line feed, or the length when there is none. */
  function NextLineFeed(s: string): (n: nat)
    ensures n <= |s|
    ensures '\n' !in s[..n]
    ensures n < |s| ==> s[n] == '\n'
  {
    if s == [] || s[0] == '\n' then 0 else
      assert s[..1 + NextLineFeed(s[1..])] == [s[0]] + s[1..][..NextLineFeed(s[1..])];
      1 + NextLineFeed(s[1..])
  }

  /** `str::lines`: a final line without a line feed keeps its carriage return, and a final line feed
      does not start another line. */
  function Lines(text: string): seq<string>
    decreases |text|
  {
    if text == [] then [] else
      var n := NextLineFeed(text);
      if n == |text| then [text] else [StripCarriageReturn(text[..n])] + Lines(text[n + 1..])
  }

  /** The words of a line: the maximal stretches without white space. */
  function Words(s: string): seq<string>
    decreases |s|
  {
    if s == [] then []
    else if IsWhitespace(s[0]) then Words(s[1..])
    else [s[..WordEnd(s)]] + Words(s[WordEnd(s)..])
  }

  function WordEnd(s: string): (n: nat)
    ensures n <= |s|
    ensures s != [] && !IsWhitespace(s[0]) ==> n > 0
    ensures forall i | 0 <= i < n :: !IsWhitespace(s[i])
    ensures n < |s| ==> IsWhitespace(s[n])
  {
    if s == [] || IsWhitespace(s[0]) then 0 else 1 + WordEnd(s[1..])
  }

  function JoinWords(words: seq<string>): string {
    if words == [] then ""
    else if |words| == 1 then words[0]
    else words[0] + " " + JoinWords(words[1..])
  }

  // ---------------------------------------------------------------- the scanner

  /** What the summariser takes from outside: the Unicode alphanumeric table and the SHA-1 fingerprint
      of a value in a domain. */
  datatype Tables = Tables(alphanumeric: char -> bool, hash: (string, string) -> string)

  datatype Fingerprint = Fingerprint(pathHash: string, lineHash: string)

  datatype AddedLine = AddedLine(path: Option<string>, text: string)

  datatype Scan = Scan(path: Option<string>, inHunk: bool, added: seq<AddedLine>, deleted: nat)

  const StartScan := Scan(None, false, [], 0)

  predicate HasPrefix(line: string, prefix: string) {
    prefix <= line
  }

  function NormalizeDiffPath(raw: string): Option<string> {
    var path := Trim(raw);
    if path == "/dev/null" then None
    else if HasPrefix(path, "b/") || HasPrefix(path, "a/") then Some(path[2..])
    else Some(path)
  }

  function NormalizeEffectiveLine(tables: Tables, line: string): Option<string> {
    var normalized := JoinWords(Words(line));
    if |Utf8.Encode(normalized)| <= 3 then None
    else if !exists i :: 0 <= i < |normalized| && (tables.alphanumeric(normalized[i]) || normalized[i] == '_') then None
    else Some(normalized)
  }

  function ScanLine(s: Scan, line: string): Scan {
    if HasPrefix(line, "diff --git ") then s.(path := None, inHunk := false)
    else if HasPrefix(line, "@@ ") then s.(inHunk := true)
    else if !s.inHunk && HasPrefix(line, "+++ ") then s.(path := NormalizeDiffPath(line[4..]))
    else if !s.inHunk && HasPrefix(line, "--- ") then s
    else if HasPrefix(line, "+") then s.(added := s.added + [AddedLine(s.path, line[1..])])
    else if HasPrefix(line, "-") then s.(deleted := s.deleted + 1)
    else s
  }

  function ScanLines(s: Scan, lines: seq<string>): Scan
    decreases |lines|
  {
    if lines == [] then s else ScanLines(ScanLine(s, lines[0]), lines[1..])
  }

  function ScanDiff(diff: string): Scan {
    ScanLines(StartScan, Lines(diff))
  }

  function FingerprintOf(tables: Tables, line: AddedLine): seq<Fingerprint> {
    var effective := NormalizeEffectiveLine(tables, line.text);
    if line.path.Some? && effective.Some?
    then [Fingerprint(tables.hash("path", line.path.value), tables.hash("line", effective.value))]
    else []
  }

  function Fingerprints(tables: Tables, added: seq<AddedLine>): seq<Fingerprint> {
    if added == [] then []
    else Fingerprints(tables, added[..|added| - 1]) + FingerprintOf(tables, added[|added| - 1])
  }

  lemma ScanLinesAppend(s: Scan, a: seq<string>, b: seq<string>)
    ensures ScanLines(s, a + b) == ScanLines(ScanLines(s, a), b)
    decreases |a|
  {
    if a == [] {
      assert a + b == b;
    } else {
      assert (a + b)[1..] == a[1..] + b;
      ScanLinesAppend(ScanLine(s, a[0]), a[1..], b);
    }
  }

  /** The summariser's loop over the lines of a diff. */
  method Summarize(tables: Tables, diff: string) returns (added: nat, deleted: nat, fingerprints: seq<Fingerprint>)
    ensures added == |ScanDiff(diff).added|
    ensures deleted == ScanDiff(diff).deleted
    ensures fingerprints == Fingerprints(tables, ScanDiff(diff).added)
  {
    var lines := Lines(diff);
    var path: Option<string> := None;
    var inHunk := false;
    ghost var seen: seq<AddedLine> := [];
    added, deleted, fingerprints := 0, 0, [];
    for i := 0 to |lines|
      invariant ScanLines(StartScan, lines) == ScanLines(Scan(path, inHunk, seen, deleted), lines[i..])
      invariant added == |seen| && fingerprints == Fingerprints(tables, seen)
    {
      var line := lines[i];
      assert lines[i..][0] == line && lines[i..][1..] == lines[i + 1..];
      if HasPrefix(line, "diff --git ") {
        path, inHunk := None, false;
        continue;
      }
      if HasPrefix(line, "@@ ") {
        inHunk := true;
        continue;
      }
      if !inHunk && HasPrefix(line, "+++ ") {
        path := NormalizeDiffPath(line[4..]);
        continue;
      }
      if !inHunk && HasPrefix(line, "--- ") {
        continue;
      }
      if HasPrefix(line, "+") {
        added := added + 1;
        seen := seen + [AddedLine(path, line[1..])];
        assert seen[..|seen| - 1] + [AddedLine(path, line[1..])] == seen;
        var effective := NormalizeEffectiveLine(tables, line[1..]);
        if path.Some? && effective.Some? {
          fingerprints := fingerprints
            + [Fingerprint(tables.hash("path", path.value), tables.hash("line", effective.value))];
        }
        continue;
      }
      if HasPrefix(line, "-") {
        deleted := deleted + 1;
      }
    }
  }

  // ---------------------------------------------------------------- what a fingerprint is

  /** Words with white space before, between and after them. */
  function Spread(gaps: seq<string>, words: seq<string>): string
    requires |gaps| == |words| + 1
  {
    if words == [] then gaps[0] else gaps[0] + words[0] + Spread(gaps[1..], words[1..])
  }

  predicate IsWord(s: string) {
    s != [] && forall i | 0 <= i < |s| :: !IsWhitespace(s[i])
  }

  predicate ValidSpread(gaps: seq<string>, words: seq<string>) {
    && |gaps| == |words| + 1
    && (forall i | 0 <= i < |gaps| :: AllWhitespace(gaps[i]))
    && (forall i | 0 < i < |words| :: gaps[i] != [])
    && (forall i | 0 <= i < |words| :: IsWord(words[i]))
  }

  lemma SpreadTail(gaps: seq<string>, words: seq<string>)
    requires ValidSpread(gaps, words) && words != []
    ensures ValidSpread(gaps[1..], words[1..])
    ensures var rest := Spread(gaps[1..], words[1..]); rest == [] || IsWhitespace(rest[0])
  {
    var rest := Spread(gaps[1..], words[1..]);
    if |words| > 1 {
      assert gaps[1] != [] && rest[0] == gaps[1][0];
    }
  }

  lemma {:induction false} WordsSkipGap(gap: string, rest: string)
    requires AllWhitespace(gap)
    ensures Words(gap + rest) == Words(rest)
    decreases |gap|
  {
    if gap == [] {
      assert gap + rest == rest;
    } else {
      assert (gap + rest)[1..] == gap[1..] + rest;
      WordsSkipGap(gap[1..], rest);
    }
  }

  lemma {:induction false} WordEndAfter(word: string, rest: string)
    requires forall i | 0 <= i < |word| :: !IsWhitespace(word[i])
    requires rest == [] || IsWhitespace(rest[0])
    ensures WordEnd(word + rest) == |word|
    decreases |word|
  {
    if word == [] {
      assert word + rest == rest;
    } else {
      assert (word + rest)[1..] == word[1..] + rest;
      WordEndAfter(word[1..], rest);
    }
  }

  /** The words of a line are the words it was spread from. */
  lemma {:induction false} WordsOfSpread(gaps: seq<string>, words: seq<string>)
    requires ValidSpread(gaps, words)
    ensures Words(Spread(gaps, words)) == words
    decreases |words|
  {
    if words == [] {
      WordsSkipGap(gaps[0], []);
      assert gaps[0] + [] == gaps[0];
    } else {
      var rest := Spread(gaps[1..], words[1..]);
      SpreadTail(gaps, words);
      assert gaps[0] + words[0] + rest == gaps[0] + (words[0] + rest);
      WordsSkipGap(gaps[0], words[0] + rest);
      WordEndAfter(words[0], rest);
      assert (words[0] + rest)[..|words[0]|] == words[0] && (words[0] + rest)[|words[0]|..] == rest;
      WordsOfSpread(gaps[1..], words[1..]);
    }
  }

  lemma SpreadMoreGap(c: char, gaps: seq<string>, words: seq<string>)
    requires ValidSpread(gaps, words) && IsWhitespace(c)
    ensures var more := [[c] + gaps[0]] + gaps[1..];
            ValidSpread(more, words) && Spread(more, words) == [c] + Spread(gaps, words)
  {
    var more := [[c] + gaps[0]] + gaps[1..];
    assert more[1..] == gaps[1..];
    if words != [] {
      var rest := Spread(gaps[1..], words[1..]);
      assert [c] + gaps[0] + words[0] + rest == [c] + (gaps[0] + words[0] + rest);
    }
  }

  lemma SpreadMoreWord(word: string, gaps: seq<string>, words: seq<string>)
    requires ValidSpread(gaps, words) && IsWord(word) && (words != [] ==> gaps[0] != [])
    ensures var more := [[]] + gaps;
            ValidSpread(more, [word] + words) && Spread(more, [word] + words) == word + Spread(gaps, words)
  {
    var more, all := [[]] + gaps, [word] + words;
    assert more[1..] == gaps && all[1..] == words;
    assert forall i | 0 < i < |all| :: more[i] == gaps[i - 1];
    assert [] + word + Spread(gaps, words) == word + Spread(gaps, words);
  }

  /** Every line is its words spread with some white space. */
  lemma {:induction false} EveryLineIsSpread(line: string) returns (gaps: seq<string>)
    ensures ValidSpread(gaps, Words(line)) && Spread(gaps, Words(line)) == line
    decreases |line|
  {
    if line == [] {
      gaps := [[]];
    } else if IsWhitespace(line[0]) {
      var more := EveryLineIsSpread(line[1..]);
      SpreadMoreGap(line[0], more, Words(line[1..]));
      gaps := [[line[0]] + more[0]] + more[1..];
      assert line == [line[0]] + line[1..];
    } else {
      var n := WordEnd(line);
      var more := EveryLineIsSpread(line[n..]);
      SpreadMoreWord(line[..n], more, Words(line[n..]));
      gaps := [[]] + more;
      assert line == line[..n] + line[n..];
    }
  }

  /** No white space around the words and one space between them. */
  function Spaces(n: nat): seq<string> {
    seq(n + 1, i => if i == 0 || i == n then "" else " ")
  }

  /** The words with one space between them. */
  function Spaced(words: seq<string>): string {
    Spread(Spaces(|words|), words)
  }

  lemma SpreadFirstGap(gap: string, gaps: seq<string>, words: seq<string>)
    requires |gaps| == |words|
    ensures Spread([gap] + gaps, words) == gap + Spread([""] + gaps, words)
  {
    if words != [] {
      assert ([gap] + gaps)[1..] == gaps && ([""] + gaps)[1..] == gaps;
      var rest := Spread(gaps, words[1..]);
      assert gap + words[0] + rest == gap + ("" + words[0] + rest);
    } else {
      assert gap + "" == gap;
    }
  }

  lemma {:induction false} JoinIsSpaced(words: seq<string>)
    ensures JoinWords(words) == Spaced(words)
    decreases |words|
  {
    var n := |words|;
    if n == 1 {
      assert Spaces(1)[0] == "" && Spaces(1)[1..][0] == "" && words[1..] == [];
      assert Spread(Spaces(1)[1..], words[1..]) == "";
      assert "" + words[0] + "" == words[0];
    } else if n > 1 {
      var tail := Spaces(n - 1)[1..];
      JoinIsSpaced(words[1..]);
      assert Spaces(n)[1..] == [" "] + tail && Spaces(n - 1) == [""] + tail;
      SpreadFirstGap(" ", tail, words[1..]);
      var rest := Spaced(words[1..]);
      assert "" + words[0] + (" " + rest) == words[0] + " " + rest;
    }
  }

  predicate Counts(tables: Tables, c: char) {
    tables.alphanumeric(c) || c == '_'
  }

  predicate HasCounting(tables: Tables, s: string) {
    exists c <- s :: Counts(tables, c)
  }

  lemma CountingAppend(tables: Tables, a: string, b: string)
    ensures HasCounting(tables, a + b) <==> HasCounting(tables, a) || HasCounting(tables, b)
  {
    assert forall c <- a :: c in a + b;
    assert forall c <- b :: c in a + b;
  }

  lemma {:induction false} CountingInJoin(tables: Tables, words: seq<string>)
    requires !tables.alphanumeric(' ')
    ensures HasCounting(tables, JoinWords(words)) <==> exists w <- words :: HasCounting(tables, w)
    decreases |words|
  {
    if |words| > 1 {
      var rest := JoinWords(words[1..]);
      CountingInJoin(tables, words[1..]);
      CountingAppend(tables, words[0] + " ", rest);
      CountingAppend(tables, words[0], " ");
      assert words == [words[0]] + words[1..];
      assert !HasCounting(tables, " ");
    } else if |words| == 1 {
      assert words[0] in words;
    }
  }

  /** The effective text of a line is its words with one space between them, if that is longer than three bytes and
      some character of a word is alphanumeric or an underscore; other lines have none. A space is not
      alphanumeric. */
  lemma EffectiveTextIff(tables: Tables, gaps: seq<string>, words: seq<string>)
    requires ValidSpread(gaps, words) && !tables.alphanumeric(' ')
    ensures NormalizeEffectiveLine(tables, Spread(gaps, words))
         == if |Utf8.Encode(Spaced(words))| > 3 && (exists w <- words :: HasCounting(tables, w))
            then Some(Spaced(words)) else None
  {
    WordsOfSpread(gaps, words);
    JoinIsSpaced(words);
    CountingInJoin(tables, words);
    var text := Spaced(words);
    assert HasCounting(tables, text)
      <==> exists i :: 0 <= i < |text| && (tables.alphanumeric(text[i]) || text[i] == '_') by {
      if HasCounting(tables, text) {
        var c :| c in text && Counts(tables, c);
        var i :| 0 <= i < |text| && text[i] == c;
      }
      if i :| 0 <= i < |text| && (tables.alphanumeric(text[i]) || text[i] == '_') {
        assert text[i] in text && Counts(tables, text[i]);
      }
    }
  }

  /** The fingerprint of an added line: the hash of its file's path and the hash of its effective text, and none
      without a path or without an effective text. */
  lemma FingerprintIff(tables: Tables, path: Option<string>, gaps: seq<string>, words: seq<string>)
    requires ValidSpread(gaps, words) && !tables.alphanumeric(' ')
    ensures FingerprintOf(tables, AddedLine(path, Spread(gaps, words)))
         == if path.Some? && |Utf8.Encode(Spaced(words))| > 3 && (exists w <- words :: HasCounting(tables, w))
            then [Fingerprint(tables.hash("path", path.value), tables.hash("line", Spaced(words)))] else []
  {
    EffectiveTextIff(tables, gaps, words);
  }

  /** Fingerprints come in the order of the lines. */
  lemma {:induction false} FingerprintsInOrder(tables: Tables, a: seq<AddedLine>, b: seq<AddedLine>)
    ensures Fingerprints(tables, a + b) == Fingerprints(tables, a) + Fingerprints(tables, b)
    ensures |a| == 1 ==> Fingerprints(tables, a) == FingerprintOf(tables, a[0])
    decreases |b|
  {
    assert |a| == 1 ==> a[..0] == [];
    if b == [] {
      assert a + b == a;
    } else {
      assert (a + b)[..|a + b| - 1] == a + b[..|b| - 1];
      FingerprintsInOrder(tables, a, b[..|b| - 1]);
    }
  }

  // ---------------------------------------------------------------- git's rendering

  datatype BodyLine = Added(text: string) | Deleted(text: string) | Context(text: string) | NoNewlineAtEnd

  datatype Hunk = Hunk(range: string, body: seq<BodyLine>)

  /** The `---` and `+++` lines; a patch without content changes has none. */
  datatype Names = Names(oldName: string, newName: string)

  /** `extended` holds the header lines between the `diff --git` line and the names (modes, index,
      similarity, renames, binary notes). */
  datatype FilePatch = FilePatch(gitLine: string, extended: seq<string>, names: Option<Names>, hunks: seq<Hunk>)

  predicate OneLine(s: string) {
    '\n' !in s
  }

  /** An extended header line is a line of its own kind. */
  predicate IsExtendedHeader(s: string) {
    OneLine(s) && (s == [] || s[0] !in "+-@") && !HasPrefix(s, "diff --git ")
  }

  predicate ValidHunk(h: Hunk) {
    OneLine(h.range) && forall i | 0 <= i < |h.body| :: OneLine(RenderBody(h.body[i]))
  }

  predicate ValidPatch(p: FilePatch) {
    && OneLine(p.gitLine)
    && (forall i | 0 <= i < |p.extended| :: IsExtendedHeader(p.extended[i]))
    && (p.names.Some? ==> OneLine(p.names.value.oldName) && OneLine(p.names.value.newName))
    && (p.hunks != [] ==> p.names.Some?)
    && (forall i | 0 <= i < |p.hunks| :: ValidHunk(p.hunks[i]))
  }

  predicate ValidPatches(patches: seq<FilePatch>) {
    forall i | 0 <= i < |patches| :: ValidPatch(patches[i])
  }

  function RenderBody(b: BodyLine): string {
    match b
    case Added(t) => "+" + t
    case Deleted(t) => "-" + t
    case Context(t) => " " + t
    case NoNewlineAtEnd => "\\ No newline at end of file"
  }

  function RenderBodies(bs: seq<BodyLine>): seq<string> {
    if bs == [] then [] else [RenderBody(bs[0])] + RenderBodies(bs[1..])
  }

  function RenderHunks(hs: seq<Hunk>): seq<string> {
    if hs == [] then [] else ["@@ " + hs[0].range] + RenderBodies(hs[0].body) + RenderHunks(hs[1..])
  }

  function RenderNames(names: Option<Names>): seq<string> {
    if names.None? then [] else ["--- " + names.value.oldName, "+++ " + names.value.newName]
  }

  function RenderPatch(p: FilePatch): seq<string> {
    ["diff --git " + p.gitLine] + p.extended + RenderNames(p.names) + RenderHunks(p.hunks)
  }

  function RenderPatches(ps: seq<FilePatch>): seq<string> {
    if ps == [] then [] else RenderPatch(ps[0]) + RenderPatches(ps[1..])
  }

  /** Every line of a rendered diff ends in a line feed. */
  function Text(lines: seq<string>): string {
    if lines == [] then "" else lines[0] + "\n" + Text(lines[1..])
  }

  // ---------------------------------------------------------------- what a patch list means

  function AddedInBody(path: Option<string>, bs: seq<BodyLine>): seq<AddedLine> {
    if bs == [] then []
    else (if bs[0].Added? then [AddedLine(path, bs[0].text)] else []) + AddedInBody(path, bs[1..])
  }

  function AddedInHunks(path: Option<string>, hs: seq<Hunk>): seq<AddedLine> {
    if hs == [] then [] else AddedInBody(path, hs[0].body) + AddedInHunks(path, hs[1..])
  }

  /** The added lines of a patch list in order, each under its own file's name line. */
  function AddedInPatches(ps: seq<FilePatch>): seq<AddedLine> {
    if ps == [] then [] else AddedInHunks(RecordedPath(ps[0]), ps[0].hunks) + AddedInPatches(ps[1..])
  }

  function RecordedPath(p: FilePatch): Option<string> {
    if p.names.None? then None else NormalizeDiffPath(p.names.value.newName)
  }

  function DeletedInBody(bs: seq<BodyLine>): nat {
    if bs == [] then 0 else (if bs[0].Deleted? then 1 else 0) + DeletedInBody(bs[1..])
  }

  function DeletedInHunks(hs: seq<Hunk>): nat {
    if hs == [] then 0 else DeletedInBody(hs[0].body) + DeletedInHunks(hs[1..])
  }

  function DeletedInPatches(ps: seq<FilePatch>): nat {
    if ps == [] then 0 else DeletedInHunks(ps[0].hunks) + DeletedInPatches(ps[1..])
  }

  // ---------------------------------------------------------------- lines of a rendered text

  function StripAll(lines: seq<string>): seq<string> {
    if lines == [] then [] else [StripCarriageReturn(lines[0])] + StripAll(lines[1..])
  }

  predicate AllOneLine(lines: seq<string>) {
    forall i | 0 <= i < |lines| :: OneLine(lines[i])
  }

  lemma LineFeedAfterLine(line: string, rest: string)
    requires OneLine(line)
    ensures NextLineFeed(line + "\n" + rest) == |line|
  {
    if line != [] {
      assert (line + "\n" + rest)[1..] == line[1..] + "\n" + rest;
      LineFeedAfterLine(line[1..], rest);
    }
  }

  lemma {:induction false} LinesOfText(lines: seq<string>)
    requires AllOneLine(lines)
    ensures Lines(Text(lines)) == StripAll(lines)
  {
    if lines != [] {
      var rest := Text(lines[1..]);
      LineFeedAfterLine(lines[0], rest);
      var whole := lines[0] + "\n" + rest;
      assert whole[..|lines[0]|] == lines[0] && whole[|lines[0]| + 1..] == rest;
      LinesOfText(lines[1..]);
    }
  }

  lemma StripAllAppend(a: seq<string>, b: seq<string>)
    ensures StripAll(a + b) == StripAll(a) + StripAll(b)
  {
    if a == [] {
      assert a + b == b;
    } else {
      assert (a + b)[1..] == a[1..] + b;
      StripAllAppend(a[1..], b);
    }
  }

  // ---------------------------------------------------------------- white space is not part of a line's words

  lemma WordsDropTrailing(s: string, w: char)
    requires IsWhitespace(w)
    ensures Words(s + [w]) == Words(s)
    decreases |s|
  {
    if s == [] {
      assert (s + [w])[1..] == [];
    } else if IsWhitespace(s[0]) {
      assert (s + [w])[1..] == s[1..] + [w];
      WordsDropTrailing(s[1..], w);
    } else {
      WordEndDropTrailing(s, w);
      var n := WordEnd(s);
      assert (s + [w])[..n] == s[..n];
      assert (s + [w])[n..] == s[n..] + [w];
      WordsDropTrailing(s[n..], w);
    }
  }

  lemma WordEndDropTrailing(s: string, w: char)
    requires IsWhitespace(w)
    ensures WordEnd(s + [w]) == WordEnd(s)
  {
    if s != [] {
      assert (s + [w])[1..] == s[1..] + [w];
    }
  }

  lemma NormalizeIgnoresCarriageReturn(tables: Tables, text: string)
    ensures NormalizeEffectiveLine(tables, StripCarriageReturn(text)) == NormalizeEffectiveLine(tables, text)
  {
    if text != [] && text[|text| - 1] == '\r' {
      assert text == text[..|text| - 1] + ['\r'];
      WordsDropTrailing(text[..|text| - 1], '\r');
    }
  }

  lemma TrimDropsTrailing(s: string, w: char)
    requires IsWhitespace(w)
    ensures Trim(s + [w]) == Trim(s)
    decreases |s|
  {
    if s == [] {
      assert TrimStart(s + [w]) == TrimStart((s + [w])[1..]) == [];
    } else if IsWhitespace(s[0]) {
      assert (s + [w])[1..] == s[1..] + [w];
      TrimDropsTrailing(s[1..], w);
    } else {
      assert TrimStart(s + [w]) == s + [w];
      assert (s + [w])[..|s|] == s;
    }
  }

  lemma PathIgnoresCarriageReturn(raw: string)
    ensures NormalizeDiffPath(StripCarriageReturn(raw)) == NormalizeDiffPath(raw)
  {
    if raw != [] && raw[|raw| - 1] == '\r' {
      assert raw == raw[..|raw| - 1] + ['\r'];
      TrimDropsTrailing(raw[..|raw| - 1], '\r');
    }
  }

  // ---------------------------------------------------------------- scanning what was rendered

  function StripTexts(added: seq<AddedLine>): seq<AddedLine> {
    seq(|added|, i requires 0 <= i < |added| => AddedLine(added[i].path, StripCarriageReturn(added[i].text)))
  }

  /** The scan after `added` and `deleted` more lines of the file whose name line is being read. */
  function Counted(s: Scan, added: seq<AddedLine>, deleted: nat): Scan {
    s.(added := s.added + StripTexts(added), deleted := s.deleted + deleted)
  }

  lemma StripTextsAppend(front: seq<AddedLine>, a: seq<AddedLine>, b: seq<AddedLine>)
    ensures front + StripTexts(a) + StripTexts(b) == front + StripTexts(a + b)
  {
    assert StripTexts(a + b) == StripTexts(a) + StripTexts(b);
  }

  lemma CountedTwice(s: Scan, a: seq<AddedLine>, m: nat, b: seq<AddedLine>, n: nat)
    ensures Counted(Counted(s, a, m), b, n) == Counted(s, a + b, m + n)
  {
    StripTextsAppend(s.added, a, b);
  }

  lemma ScanOneBodyLine(s: Scan, b: BodyLine)
    requires s.inHunk && OneLine(RenderBody(b))
    ensures ScanLine(s, StripCarriageReturn(RenderBody(b)))
         == Counted(s, AddedInBody(s.path, [b]), DeletedInBody([b]))
  {
    var line := StripCarriageReturn(RenderBody(b));
    assert line != [] && line[0] == RenderBody(b)[0];
    assert "diff --git "[0] == 'd' && "@@ "[0] == '@';
    match b
    case Added(t) =>
      assert line[1..] == StripCarriageReturn(t);
      assert AddedInBody(s.path, [b]) == [AddedLine(s.path, t)];
      assert StripTexts([AddedLine(s.path, t)]) == [AddedLine(s.path, StripCarriageReturn(t))];
    case _ =>
      assert AddedInBody(s.path, [b]) == [];
  }

  lemma {:induction false} ScanBodies(s: Scan, bs: seq<BodyLine>)
    requires s.inHunk && forall i | 0 <= i < |bs| :: OneLine(RenderBody(bs[i]))
    ensures ScanLines(s, StripAll(RenderBodies(bs))) == Counted(s, AddedInBody(s.path, bs), DeletedInBody(bs))
    decreases |bs|
  {
    if bs == [] {
      assert s.added + [] == s.added;
    } else {
      ScanOneBodyLine(s, bs[0]);
      var s1 := Counted(s, AddedInBody(s.path, [bs[0]]), DeletedInBody([bs[0]]));
      ScanBodies(s1, bs[1..]);
      CountedTwice(s, AddedInBody(s.path, [bs[0]]), DeletedInBody([bs[0]]),
                   AddedInBody(s.path, bs[1..]), DeletedInBody(bs[1..]));
      assert AddedInBody(s.path, [bs[0]]) + AddedInBody(s.path, bs[1..]) == AddedInBody(s.path, bs);
    }
  }

  lemma StripKeepsPrefix(prefix: string, rest: string)
    requires prefix != [] && prefix[|prefix| - 1] != '\r'
    ensures StripCarriageReturn(prefix + rest) == prefix + StripCarriageReturn(rest)
  {
  }

  /** Hunks after the name lines: each is opened by its range line and none of its body lines, not even
      one that looks like a name line, changes the path. */
  lemma {:induction false} ScanHunks(s: Scan, hs: seq<Hunk>)
    requires forall i | 0 <= i < |hs| :: ValidHunk(hs[i])
    ensures ScanLines(s, StripAll(RenderHunks(hs)))
         == Counted(s.(inHunk := s.inHunk || hs != []), AddedInHunks(s.path, hs), DeletedInHunks(hs))
    decreases |hs|
  {
    if hs == [] {
      assert s.added + [] == s.added;
    } else {
      var range := "@@ " + hs[0].range;
      var bodies, others := RenderBodies(hs[0].body), RenderHunks(hs[1..]);
      assert [range] + bodies + others == [range] + (bodies + others);
      StripAllAppend([range], bodies + others);
      StripAllAppend(bodies, others);
      StripKeepsPrefix("@@ ", hs[0].range);
      var s1 := s.(inHunk := true);
      assert StripAll([range]) == [StripCarriageReturn(range)];
      assert "diff --git "[0] != range[0];
      assert ScanLine(s, StripCarriageReturn(range)) == s1;
      ScanLinesAppend(s1, StripAll(bodies), StripAll(others));
      ScanBodies(s1, hs[0].body);
      var s2 := Counted(s1, AddedInBody(s.path, hs[0].body), DeletedInBody(hs[0].body));
      ScanHunks(s2, hs[1..]);
      CountedTwice(s1, AddedInBody(s.path, hs[0].body), DeletedInBody(hs[0].body),
                   AddedInHunks(s.path, hs[1..]), DeletedInHunks(hs[1..]));
    }
  }

  lemma {:induction false} ScanExtended(s: Scan, lines: seq<string>)
    requires forall i | 0 <= i < |lines| :: IsExtendedHeader(lines[i])
    ensures ScanLines(s, StripAll(lines)) == s
    decreases |lines|
  {
    if lines != [] {
      var line := lines[0];
      var stripped := StripCarriageReturn(line);
      assert stripped != [] ==> stripped[0] == line[0];
      assert stripped <= line;
      assert "+"[0] == '+' && "-"[0] == '-' && "@@ "[0] == '@';
      assert ScanLine(s, stripped) == s;
      ScanExtended(s, lines[1..]);
    }
  }

  lemma ScanNames(s: Scan, names: Option<Names>)
    requires !s.inHunk
    ensures ScanLines(s, StripAll(RenderNames(names)))
         == if names.None? then s else s.(path := NormalizeDiffPath(names.value.newName))
  {
    if names.Some? {
      var first, second := "--- " + names.value.oldName, "+++ " + names.value.newName;
      StripKeepsPrefix("--- ", names.value.oldName);
      StripKeepsPrefix("+++ ", names.value.newName);
      PathIgnoresCarriageReturn(names.value.newName);
      assert RenderNames(names) == [first] + [second];
      StripAllAppend([first], [second]);
      assert first[0] == '-' && second[0] == '+';
      assert "diff --git "[0] == 'd' && "@@ "[0] == '@' && "--- "[0] == '-';
      assert StripAll([first]) == [StripCarriageReturn(first)];
      assert StripAll([second]) == [StripCarriageReturn(second)];
      assert ScanLine(s, StripCarriageReturn(first)) == s;
      assert StripCarriageReturn(second)[4..] == StripCarriageReturn(names.value.newName);
      ScanLinesAppend(s, StripAll([first]), StripAll([second]));
    }
  }

  lemma ScanPatch(s: Scan, p: FilePatch)
    requires ValidPatch(p)
    ensures var after := ScanLines(s, StripAll(RenderPatch(p)));
            && after.added == s.added + StripTexts(AddedInHunks(RecordedPath(p), p.hunks))
            && after.deleted == s.deleted + DeletedInHunks(p.hunks)
  {
    var git := "diff --git " + p.gitLine;
    var names, hunks := RenderNames(p.names), RenderHunks(p.hunks);
    assert RenderPatch(p) == [git] + (p.extended + (names + hunks));
    StripAllAppend([git], p.extended + (names + hunks));
    StripAllAppend(p.extended, names + hunks);
    StripAllAppend(names, hunks);
    StripKeepsPrefix("diff --git ", p.gitLine);
    var s1 := s.(path := None, inHunk := false);
    assert StripAll([git]) == [StripCarriageReturn(git)];
    assert ScanLine(s, StripCarriageReturn(git)) == s1;
    ScanLinesAppend(s1, StripAll(p.extended), StripAll(names + hunks));
    ScanExtended(s1, p.extended);
    ScanLinesAppend(s1, StripAll(names), StripAll(hunks));
    ScanNames(s1, p.names);
    ScanHunks(s1.(path := RecordedPath(p)), p.hunks);
  }

  lemma {:induction false} ScanPatches(s: Scan, ps: seq<FilePatch>)
    requires ValidPatches(ps)
    ensures var after := ScanLines(s, StripAll(RenderPatches(ps)));
            && after.added == s.added + StripTexts(AddedInPatches(ps))
            && after.deleted == s.deleted + DeletedInPatches(ps)
    decreases |ps|
  {
    if ps == [] {
      assert s.added + [] == s.added;
    } else {
      var one, others := RenderPatch(ps[0]), RenderPatches(ps[1..]);
      StripAllAppend(one, others);
      ScanLinesAppend(s, StripAll(one), StripAll(others));
      ScanPatch(s, ps[0]);
      var s1 := ScanLines(s, StripAll(one));
      ScanPatches(s1, ps[1..]);
      StripTextsAppend(s.added, AddedInHunks(RecordedPath(ps[0]), ps[0].hunks), AddedInPatches(ps[1..]));
    }
  }

  lemma {:induction false} RenderedLinesAreLines(ps: seq<FilePatch>)
    requires ValidPatches(ps)
    ensures AllOneLine(RenderPatches(ps))
    decreases |ps|
  {
    if ps != [] {
      var p := ps[0];
      RenderedHunksAreLines(p.hunks);
      assert AllOneLine(["diff --git " + p.gitLine]);
      assert AllOneLine(RenderPatch(p));
      RenderedLinesAreLines(ps[1..]);
    }
  }

  lemma {:induction false} RenderedHunksAreLines(hs: seq<Hunk>)
    requires forall i | 0 <= i < |hs| :: ValidHunk(hs[i])
    ensures AllOneLine(RenderHunks(hs))
    decreases |hs|
  {
    if hs != [] {
      RenderedBodiesAreLines(hs[0].body);
      RenderedHunksAreLines(hs[1..]);
      assert AllOneLine(["@@ " + hs[0].range]);
    }
  }

  lemma RenderedBodiesAreLines(bs: seq<BodyLine>)
    requires forall i | 0 <= i < |bs| :: OneLine(RenderBody(bs[i]))
    ensures AllOneLine(RenderBodies(bs))
  {
  }

  lemma {:induction false} FingerprintsIgnoreCarriageReturns(tables: Tables, added: seq<AddedLine>)
    ensures Fingerprints(tables, StripTexts(added)) == Fingerprints(tables, added)
    decreases |added|
  {
    if added != [] {
      var front, last := added[..|added| - 1], added[|added| - 1];
      assert StripTexts(added)[..|added| - 1] == StripTexts(front);
      FingerprintsIgnoreCarriageReturns(tables, front);
      NormalizeIgnoresCarriageReturn(tables, last.text);
    }
  }

  /** For every list of patches written out as a git diff, the scan of the text counts exactly the added
      and the deleted body lines, and its fingerprints are those of the effective added lines, in order,
      each under the path its own file's name line gives. */
  lemma SummaryOfRenderedDiff(tables: Tables, ps: seq<FilePatch>)
    requires ValidPatches(ps)
    ensures var scan := ScanDiff(Text(RenderPatches(ps)));
            && |scan.added| == |AddedInPatches(ps)|
            && scan.deleted == DeletedInPatches(ps)
            && Fingerprints(tables, scan.added) == Fingerprints(tables, AddedInPatches(ps))
  {
    RenderedLinesAreLines(ps);
    LinesOfText(RenderPatches(ps));
    ScanPatches(StartScan, ps);
    assert ScanDiff(Text(RenderPatches(ps))).added == StripTexts(AddedInPatches(ps));
    FingerprintsIgnoreCarriageReturns(tables, AddedInPatches(ps));
  }

  // ---------------------------------------------------------------- when the recorded path is the file's path

  lemma TrimEndOf(s: string, pad: string)
    requires AllWhitespace(pad)
    ensures TrimEnd(s + pad) == TrimEnd(s)
    decreases |pad|
  {
    if pad == [] {
      assert s + pad == s;
    } else {
      var front := pad[..|pad| - 1];
      assert (s + pad)[..|s + pad| - 1] == s + front;
      TrimEndOf(s, front);
    }
  }

  lemma TrimEndKeepsFront(a: string, b: string)
    requires a != [] && !EndsInWhitespace(a)
    ensures TrimEnd(a + b) == a + TrimEnd(b)
    decreases |b|
  {
    if b == [] {
      assert a + b == a;
    } else if IsWhitespace(b[|b| - 1]) {
      assert (a + b)[..|a + b| - 1] == a + b[..|b| - 1];
      TrimEndKeepsFront(a, b[..|b| - 1]);
    }
  }

  /** A new-side name line `b/<path>`, followed by whatever white space git pads it with, records the
      file's own path exactly when that path does not end in white space; otherwise the trailing white
      space is lost. */
  lemma RecordedPathIsOwnPath(path: string, pad: string)
    requires AllWhitespace(pad)
    ensures NormalizeDiffPath("b/" + path + pad) == Some(TrimEnd(path))
    ensures NormalizeDiffPath("b/" + path + pad) == Some(path) <==> !EndsInWhitespace(path)
  {
    var raw := "b/" + path + pad;
    assert raw[0] == 'b';
    assert TrimStart(raw) == raw;
    TrimEndOf("b/" + path, pad);
    TrimEndKeepsFront("b/", path);
    assert Trim(raw) == "b/" + TrimEnd(path);
    assert Trim(raw)[0] == 'b' && "/dev/null"[0] == '/';
    TrimEndShortens(path);
  }

  lemma TrimEndShortens(s: string)
    ensures |TrimEnd(s)| <= |s|
    ensures TrimEnd(s) == s <==> !EndsInWhitespace(s)
  {
  }

  // ---------------------------------------------------------------- names that git quotes

  /** How git writes a name: as it is, or in double quotes with C escapes, those of the bytes outside ASCII
      only when all of them are to be quoted. */
  datatype Quoting = Unquoted | Quoted(allBytes: bool)

  function OctalDigit(n: nat): char
    requires n < 8
  {
    '0' + n as char
  }

  /** A backslash and three octal digits for every byte. */
  function OctalBytes(bytes: Utf8.Bytes): (r: string)
    ensures |r| == 4 * |bytes|
  {
    if bytes == [] then ""
    else
      var n := bytes[0] as nat;
      ['\\', OctalDigit(n / 64), OctalDigit(n / 8 % 8), OctalDigit(n % 8)] + OctalBytes(bytes[1..])
  }

  function EscapeChar(c: char, allBytes: bool): (r: string)
    ensures r != []
  {
    match c
    case '\"' => "\\\""
    case '\\' => "\\\\"
    case '\U{0007}' => "\\a"
    case '\U{0008}' => "\\b"
    case '\t' => "\\t"
    case '\n' => "\\n"
    case '\U{000B}' => "\\v"
    case '\U{000C}' => "\\f"
    case '\r' => "\\r"
    case _ =>
      if c < ' ' || c == '\U{007F}' || (allBytes && c > '\U{007F}') then OctalBytes(Utf8.EncodeChar(c)) else [c]
  }

  function Escape(path: string, allBytes: bool): (r: string)
    ensures |r| >= |path|
  {
    if path == [] then "" else EscapeChar(path[0], allBytes) + Escape(path[1..], allBytes)
  }

  /** The new-side name of a file. */
  function NameOf(path: string, quoting: Quoting): string {
    match quoting
    case Unquoted => "b/" + path
    case Quoted(allBytes) => "\"b/" + Escape(path, allBytes) + "\""
  }

  /** A quoted name is recorded with its quotes and escapes. */
  lemma QuotedNameIsRecordedAsIs(path: string, pad: string, allBytes: bool)
    requires AllWhitespace(pad)
    ensures NormalizeDiffPath(NameOf(path, Quoted(allBytes)) + pad) == Some(NameOf(path, Quoted(allBytes)))
  {
    var name := NameOf(path, Quoted(allBytes));
    assert name[0] == '"' && name[|name| - 1] == '"';
    assert TrimStart(name + pad) == name + pad;
    TrimEndOf(name, pad);
    TrimEndShortens(name);
    assert Trim(name + pad) == name;
    assert "/dev/null"[0] == '/' && "b/"[0] == 'b' && "a/"[0] == 'a';
  }

  /** Whatever way git writes the name of a file, the recorded path is the file's own if and only if the name is
      not quoted and the path does not end in white space. */
  lemma RecordedPathIff(path: string, pad: string, quoting: Quoting)
    requires AllWhitespace(pad)
    ensures NormalizeDiffPath(NameOf(path, quoting) + pad) == Some(path)
       <==> quoting.Unquoted? && !EndsInWhitespace(path)
  {
    match quoting
    case Unquoted => RecordedPathIsOwnPath(path, pad);
    case Quoted(allBytes) => QuotedNameIsRecordedAsIs(path, pad, allBytes);
  }

  // ---------------------------------------------------------------- whole diffs under their files' own paths

  /** A patch of a file at a path; `pad` is the white space git puts after a name. */
  datatype NamedPatch = NamedPatch(path: string, quoting: Quoting, pad: string, patch: FilePatch)

  predicate AddsLines(p: FilePatch) {
    AddedInHunks(None, p.hunks) != []
  }

  /** The new-side name line is the file's, quoted or not, or `/dev/null` for a deleted file. */
  predicate NamesItsFile(n: NamedPatch) {
    n.patch.names.Some? ==>
      var name := n.patch.names.value.newName;
      || (AllWhitespace(n.pad) && name == NameOf(n.path, n.quoting) + n.pad)
      || (name == "/dev/null" && !AddsLines(n.patch))
  }

  predicate ValidNamed(ns: seq<NamedPatch>) {
    forall i | 0 <= i < |ns| :: ValidPatch(ns[i].patch) && NamesItsFile(ns[i])
  }

  function PatchesOf(ns: seq<NamedPatch>): seq<FilePatch> {
    if ns == [] then [] else [ns[0].patch] + PatchesOf(ns[1..])
  }

  /** The added lines in order, each under its own file's path. */
  function OwnAdded(ns: seq<NamedPatch>): seq<AddedLine> {
    if ns == [] then [] else AddedInHunks(Some(ns[0].path), ns[0].patch.hunks) + OwnAdded(ns[1..])
  }

  predicate KeepsPath(n: NamedPatch) {
    AddsLines(n.patch) ==> n.quoting.Unquoted? && !EndsInWhitespace(n.path)
  }

  function Relabel(path: Option<string>, added: seq<AddedLine>): seq<AddedLine> {
    seq(|added|, i requires 0 <= i < |added| => AddedLine(path, added[i].text))
  }

  lemma RelabelAppend(q: Option<string>, a: seq<AddedLine>, b: seq<AddedLine>)
    ensures Relabel(q, a + b) == Relabel(q, a) + Relabel(q, b)
  {
  }

  lemma {:induction false} RelabelBody(p: Option<string>, q: Option<string>, bs: seq<BodyLine>)
    ensures AddedInBody(q, bs) == Relabel(q, AddedInBody(p, bs))
    decreases |bs|
  {
    if bs != [] {
      var first := if bs[0].Added? then [AddedLine(p, bs[0].text)] else [];
      RelabelBody(p, q, bs[1..]);
      RelabelAppend(q, first, AddedInBody(p, bs[1..]));
      assert Relabel(q, first) == if bs[0].Added? then [AddedLine(q, bs[0].text)] else [];
    }
  }

  lemma {:induction false} RelabelHunks(p: Option<string>, q: Option<string>, hs: seq<Hunk>)
    ensures AddedInHunks(q, hs) == Relabel(q, AddedInHunks(p, hs))
    decreases |hs|
  {
    if hs != [] {
      RelabelBody(p, q, hs[0].body);
      RelabelHunks(p, q, hs[1..]);
      RelabelAppend(q, AddedInBody(p, hs[0].body), AddedInHunks(p, hs[1..]));
    }
  }

  /** The path matters exactly when there are added lines to carry it. */
  lemma SameLinesIff(p: Option<string>, q: Option<string>, hs: seq<Hunk>)
    ensures |AddedInHunks(p, hs)| == |AddedInHunks(q, hs)|
    ensures AddedInHunks(p, hs) == AddedInHunks(q, hs) <==> p == q || AddedInHunks(None, hs) == []
  {
    RelabelHunks(None, p, hs);
    RelabelHunks(None, q, hs);
    if AddedInHunks(None, hs) != [] {
      assert AddedInHunks(p, hs)[0].path == p && AddedInHunks(q, hs)[0].path == q;
    }
  }

  lemma OwnPathIff(n: NamedPatch)
    requires ValidPatch(n.patch) && NamesItsFile(n)
    ensures var recorded := AddedInHunks(RecordedPath(n.patch), n.patch.hunks);
            var own := AddedInHunks(Some(n.path), n.patch.hunks);
            |recorded| == |own| && (recorded == own <==> KeepsPath(n))
  {
    SameLinesIff(RecordedPath(n.patch), Some(n.path), n.patch.hunks);
    if AddsLines(n.patch) {
      assert n.patch.hunks != [];
      RecordedPathIff(n.path, n.pad, n.quoting);
    }
  }

  lemma SplitEqual(a: seq<AddedLine>, b: seq<AddedLine>, c: seq<AddedLine>, d: seq<AddedLine>)
    requires |a| == |c|
    ensures a + b == c + d <==> a == c && b == d
  {
    if a + b == c + d {
      assert a == (a + b)[..|a|] && c == (c + d)[..|c|];
      assert b == (a + b)[|a|..] && d == (c + d)[|c|..];
    }
  }

  /** The lines recorded for a diff are each under their own file's path if and only if no file with added
      lines has a quoted name or a path that ends in white space. */
  lemma {:induction false} OwnPathsIff(ns: seq<NamedPatch>)
    requires ValidNamed(ns)
    ensures AddedInPatches(PatchesOf(ns)) == OwnAdded(ns) <==> forall i | 0 <= i < |ns| :: KeepsPath(ns[i])
    decreases |ns|
  {
    if ns != [] {
      var n, rest := ns[0], ns[1..];
      OwnPathIff(n);
      OwnPathsIff(rest);
      assert PatchesOf(ns)[1..] == PatchesOf(rest);
      SplitEqual(AddedInHunks(RecordedPath(n.patch), n.patch.hunks), AddedInPatches(PatchesOf(rest)),
                 AddedInHunks(Some(n.path), n.patch.hunks), OwnAdded(rest));
      assert ns == [n] + rest;
    }
  }

  lemma {:induction false} PatchesAreValid(ns: seq<NamedPatch>)
    requires ValidNamed(ns)
    ensures ValidPatches(PatchesOf(ns))
    decreases |ns|
  {
    if ns != [] {
      PatchesAreValid(ns[1..]);
    }
  }

  /** For every list of files whose names are not quoted and whose paths do not end in white space, the summary
      of the rendered diff has the fingerprints of the effective added lines, in order, under the files' own paths. */
  lemma SummaryUnderOwnPaths(tables: Tables, ns: seq<NamedPatch>)
    requires ValidNamed(ns) && forall i | 0 <= i < |ns| :: KeepsPath(ns[i])
    ensures var scan := ScanDiff(Text(RenderPatches(PatchesOf(ns))));
            && |scan.added| == |OwnAdded(ns)|
            && scan.deleted == DeletedInPatches(PatchesOf(ns))
            && Fingerprints(tables, scan.added) == Fingerprints(tables, OwnAdded(ns))
  {
    OwnPathsIff(ns);
    PatchesAreValid(ns);
    SummaryOfRenderedDiff(tables, PatchesOf(ns));
  }
}
