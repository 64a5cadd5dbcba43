/** Attributions, their string ids, the interning table and URL matching (src/attributions.ts). */
module Attributions {
  import opened Wrappers
  import opened Strings
  import opened Frames

  /** "Where did this time come from": nothing known, a script, or a position in a script.
      A source location may also carry the generated position it was mapped from and the
      lines of source text around it. */
  datatype Attribution =
    | Unknown
    | File(url: string)
    | SourceLocation(
        url: string,
        functionName: Option<string>,
        lineNumber: int,
        columnNumber: int,
        generated: Option<FrameInfo>,
        sourceLines: Option<seq<string>>)

  /** The source-location attribution `{kind: 'sourceLocation', ...frame}`. */
  function SourceFromFrame(f: FrameInfo): Attribution {
    SourceLocation(f.url, f.functionName, f.lineNumber, f.columnNumber, None, None)
  }

  /** How specific an attribution is: unknown < file < sourceLocation. */
  function Rank(a: Attribution): nat {
    match a
    case Unknown => 0
    case File(_) => 1
    case SourceLocation(_, _, _, _, _, _) => 2
  }

  /** Facts that differ between tasks sharing one attribution. `isTopLevel` is never written
      by the passes, which reads the same as `false` (JavaScript's `undefined` is falsy). */
  datatype Context = Context(
    isTopLevel: bool,
    isAttributionRoot: bool,
    lighthouseAttributableURLs: seq<string>,
    triggers: seq<string>)

  /** The part of an attribution that its id encodes. */
  datatype AttributionKey =
    | UnknownKey
    | FileKey(url: string)
    | SourceKey(url: string, lineNumber: int, columnNumber: int)

  function KeyOf(a: Attribution): AttributionKey {
    match a
    case Unknown => UnknownKey
    case File(url) => FileKey(url)
    case SourceLocation(url, _, line, column, _, _) => SourceKey(url, line, column)
  }

  /** attributionId: `sourceLocation#url#column#line`, `file#url` or `unknown`. */
  function AttributionId(a: Attribution): string {
    match a
    case SourceLocation(url, _, line, column, _, _) =>
      "sourceLocation#" + url + "#" + IntToString(column) + "#" + IntToString(line)
    case File(url) => "file#" + url
    case Unknown => "unknown"
  }

  /** Index of the last occurrence of `c` in `s`. */
  function LastIndexOf(s: string, c: char): (r: Option<nat>)
    ensures r.Some? ==> r.value < |s| && s[r.value] == c && c !in s[r.value + 1..]
  {
    if s == [] then None
    else if s[|s| - 1] == c then Some(|s| - 1)
    else
      var r := LastIndexOf(s[..|s| - 1], c);
      if r.Some? then
        assert s[r.value + 1..] == s[..|s| - 1][r.value + 1..] + [s[|s| - 1]];
        r
      else r
  }

  predicate IsIntText(s: string) {
    forall k :: 0 <= k < |s| ==> IsDigit(s[k]) || (k == 0 && s[k] == '-')
  }

  /** Reads an attribution id back into the key it encodes. The two numbers are split off at
      the last two '#' characters, so a '#' inside the URL is harmless. */
  function ParseId(id: string): Option<AttributionKey> {
    if id == "unknown" then Some(UnknownKey)
    else if IsPrefix("file#", id) then Some(FileKey(id[5..]))
    else if IsPrefix("sourceLocation#", id) then ParseSourcePart(id[15..])
    else None
  }

  /** The part of a source-location id after its "sourceLocation#" prefix. */
  function ParseSourcePart(rest: string): Option<AttributionKey> {
    match LastIndexOf(rest, '#')
    case None => None
    case Some(j) =>
      var lineText := rest[j + 1..];
      var front := rest[..j];
      match LastIndexOf(front, '#')
      case None => None
      case Some(i) =>
        var columnText := front[i + 1..];
        if IsIntText(columnText) && IsIntText(lineText) then
          Some(SourceKey(front[..i], ParseInt(lineText), ParseInt(columnText)))
        else None
  }

  lemma {:induction false} LastIndexOfAfter(u: string, c: char, t: string)
    requires c !in t
    ensures LastIndexOf(u + [c] + t, c) == Some(|u|)
  {
    var s := u + [c] + t;
    if t != [] {
      assert s[|s| - 1] == t[|t| - 1];
      assert s[..|s| - 1] == u + [c] + t[..|t| - 1];
      LastIndexOfAfter(u, c, t[..|t| - 1]);
    }
  }

  lemma {:induction false} ParseSourceId(url: string, columnText: string, lineText: string)
    requires '#' !in columnText && '#' !in lineText
    requires IsIntText(columnText) && IsIntText(lineText)
    ensures ParseId("sourceLocation#" + url + "#" + columnText + "#" + lineText)
         == Some(SourceKey(url, ParseInt(lineText), ParseInt(columnText)))
  {
    var id := "sourceLocation#" + url + "#" + columnText + "#" + lineText;
    assert id[0] == 's';
    assert id[..15] == "sourceLocation#";
    assert id[..5] != "file#";
    var front := url + ['#'] + columnText;
    assert id[15..] == front + ['#'] + lineText;
    ParseSourcePartOf(url, columnText, lineText);
  }

  lemma {:induction false} ParseSourcePartOf(url: string, columnText: string, lineText: string)
    requires '#' !in columnText && '#' !in lineText
    requires IsIntText(columnText) && IsIntText(lineText)
    ensures ParseSourcePart(url + ['#'] + columnText + ['#'] + lineText)
         == Some(SourceKey(url, ParseInt(lineText), ParseInt(columnText)))
  {
    var front := url + ['#'] + columnText;
    var rest := front + ['#'] + lineText;
    LastIndexOfAfter(front, '#', lineText);
    assert rest[|front| + 1..] == lineText;
    assert rest[..|front|] == front;
    LastIndexOfAfter(url, '#', columnText);
    assert front[|url| + 1..] == columnText;
    assert front[..|url|] == url;
  }

  /** Reading an id back gives the attribution's key: the id loses nothing but the function
      name, the generated position and the source lines. */
  lemma {:induction false} IdRoundTrip(a: Attribution)
    ensures ParseId(AttributionId(a)) == Some(KeyOf(a))
  {
    match a
    case Unknown =>
    case File(url) =>
      assert ("file#" + url)[0] == 'f';
      assert ("file#" + url)[..5] == "file#";
      assert ("file#" + url)[5..] == url;
    case SourceLocation(url, _, line, column, _, _) =>
      IntToStringRoundTrip(column);
      IntToStringRoundTrip(line);
      IntToStringHasNo(column, '#');
      IntToStringHasNo(line, '#');
      ParseSourceId(url, IntToString(column), IntToString(line));
  }

  /** Two attributions get the same id exactly when their kind, url, line and column agree. */
  lemma {:induction false} IdInjective(a: Attribution, b: Attribution)
    ensures AttributionId(a) == AttributionId(b) <==> KeyOf(a) == KeyOf(b)
  {
    IdRoundTrip(a);
    IdRoundTrip(b);
    if KeyOf(a) == KeyOf(b) {
      match a
      case Unknown =>
      case File(_) =>
      case SourceLocation(_, _, _, _, _, _) =>
    }
  }

  /** Every stored attribution sits under its own id. */
  ghost predicate WellKeyed(table: map<string, Attribution>) {
    forall id :: id in table ==> AttributionId(table[id]) == id
  }

  /** The attribution is the stored representative of its id. */
  predicate InTable(table: map<string, Attribution>, a: Attribution) {
    AttributionId(a) in table && table[AttributionId(a)] == a
  }

  datatype Interned = Interned(table: map<string, Attribution>, value: Attribution)

  /** AttributionMap.create as a value: the stored attribution for the argument's id, storing
      the argument first when the id is new. */
  function Intern(table: map<string, Attribution>, v: Attribution): (r: Interned)
    ensures WellKeyed(table) ==> InTable(r.table, r.value) && AttributionId(r.value) == AttributionId(v)
    ensures table.Keys <= r.table.Keys
    ensures forall id :: id in table ==> r.table[id] == table[id]
    ensures r.table.Keys == table.Keys + {AttributionId(v)}
    ensures AttributionId(v) !in table ==> r.value == v && r.table[AttributionId(v)] == v
    ensures AttributionId(v) in table ==> r.table == table && r.value == table[AttributionId(v)]
  {
    var id := AttributionId(v);
    if id in table then Interned(table, table[id]) else Interned(table[id := v], v)
  }

  /** Interning keeps every stored attribution under its own id, and returns an attribution
      with the argument's key. */
  lemma {:induction false} InternWellKeyed(table: map<string, Attribution>, v: Attribution)
    requires WellKeyed(table)
    ensures WellKeyed(Intern(table, v).table)
    ensures KeyOf(Intern(table, v).value) == KeyOf(v)
  {
    var id := AttributionId(v);
    if id in table {
      IdInjective(table[id], v);
    }
  }

  /** First writer wins: two create calls with equal ids return the same stored attribution,
      even when the second argument differs in function name or other metadata. */
  lemma {:induction false} InternSameIdSameValue(table: map<string, Attribution>, v1: Attribution, v2: Attribution)
    requires AttributionId(v1) == AttributionId(v2)
    ensures Intern(Intern(table, v1).table, v2).value == Intern(table, v1).value
    ensures Intern(Intern(table, v1).table, v2).table == Intern(table, v1).table
  {
  }

  /** The interning table of one analysis run. It only grows: no entry is ever removed or
      replaced. */
  class AttributionMap {
    var attributions: map<string, Attribution>

    ghost predicate Valid()
      reads this
    {
      WellKeyed(attributions)
    }

    constructor ()
      ensures Valid() && attributions == map[]
    {
      attributions := map[];
    }

    /** create */
    method Create(value: Attribution) returns (attribution: Attribution)
      requires Valid()
      modifies this
      ensures Valid()
      ensures Interned(attributions, attribution) == Intern(old(attributions), value)
      ensures old(attributions).Keys <= attributions.Keys
      ensures forall id :: id in old(attributions) ==> attributions[id] == old(attributions)[id]
    {
      InternWellKeyed(attributions, value);
      var id := AttributionId(value);
      if id in attributions {
        attribution := attributions[id];
      } else {
        attribution := value;
        attributions := attributions[id := attribution];
      }
    }

    /** getById */
    method GetById(id: string) returns (r: Option<Attribution>)
      ensures r.Some? <==> id in attributions
      ensures r.Some? ==> r.value == attributions[id]
    {
      if id in attributions {
        r := Some(attributions[id]);
      } else {
        r := None;
      }
    }

    /** getByValue: defined exactly when an attribution with the same id was created, and
        then it is that stored attribution, whose key equals the argument's. */
    method GetByValue(value: Attribution) returns (r: Option<Attribution>)
      requires Valid()
      ensures r.Some? <==> AttributionId(value) in attributions
      ensures r.Some? ==> r.value == attributions[AttributionId(value)] && KeyOf(r.value) == KeyOf(value)
    {
      r := GetById(AttributionId(value));
      if r.Some? {
        IdInjective(r.value, value);
      }
    }
  }

  /** The `for (const url of urls) if (url.includes(pattern)) return true` loop. */
  function SomeContains(urls: seq<string>, pattern: string): (b: bool)
    ensures b <==> exists i :: 0 <= i < |urls| && Contains(urls[i], pattern)
  {
    if urls == [] then false
    else if Contains(urls[0], pattern) then true
    else
      var b := SomeContains(urls[1..], pattern);
      assert forall i :: 1 <= i < |urls| ==> urls[i] == urls[1..][i - 1];
      b
  }

  /** isAttributedTo: does the attribution (or the task's Lighthouse URLs) match a script URL
      substring, and, when a line number is given, that line of a source location? */
  function IsAttributedTo(
    attribution: Attribution,
    context: Context,
    scriptUrlPattern: string,
    lineNumber: Option<int>): bool
  {
    if attribution.SourceLocation?
      && Contains(attribution.url, scriptUrlPattern)
      && (lineNumber.None? || attribution.lineNumber == lineNumber.value) then true
    else if attribution.SourceLocation? && attribution.generated.Some?
      && Contains(attribution.generated.value.url, scriptUrlPattern)
      && (lineNumber.None? || attribution.generated.value.lineNumber == lineNumber.value) then true
    else if lineNumber.Some? then false
    else if attribution.File? && Contains(attribution.url, scriptUrlPattern) then true
    else SomeContains(context.lighthouseAttributableURLs, scriptUrlPattern)
  }

  /** With a line number, only a source location matches: its own url and line, or its
      generated url and line. Lighthouse URLs and file attributions never match. */
  lemma {:induction false} IsAttributedToWithLine(a: Attribution, c: Context, pattern: string, line: int)
    ensures IsAttributedTo(a, c, pattern, Some(line)) <==>
      a.SourceLocation? &&
      ((Contains(a.url, pattern) && a.lineNumber == line) ||
       (a.generated.Some? && Contains(a.generated.value.url, pattern)
        && a.generated.value.lineNumber == line))
  {
  }

  /** Without a line number, the attribution's url, a generated url, or any Lighthouse URL of
      the context containing the pattern is a match. */
  lemma {:induction false} IsAttributedToWithoutLine(a: Attribution, c: Context, pattern: string)
    ensures IsAttributedTo(a, c, pattern, None) <==>
      ((a.SourceLocation? || a.File?) && Contains(a.url, pattern)) ||
      (a.SourceLocation? && a.generated.Some? && Contains(a.generated.value.url, pattern)) ||
      (exists i :: 0 <= i < |c.lighthouseAttributableURLs|
                   && Contains(c.lighthouseAttributableURLs[i], pattern))
  {
  }
}
