/** The exposer's response file: printed by the controller, parsed and served by the exposer. */
module ExposerFile {
  import opened Api

  const CHALLENGE_PREFIX := "/.well-known/acme-challenge/"

  /** unicode.IsSpace. */
  predicate IsSpace(c: char)
  {
    || c == '\t' || c == '\n' || c == '\U{0B}' || c == '\U{0C}' || c == '\r' || c == ' '
    || c == '\U{85}' || c == '\U{A0}' || c == '\U{1680}' || '\U{2000}' <= c <= '\U{200A}'
    || c == '\U{2028}' || c == '\U{2029}' || c == '\U{202F}' || c == '\U{205F}' || c == '\U{3000}'
  }

  /** strings.TrimSpace leaves nothing. */
  predicate Blank(s: string)
  {
    forall i :: 0 <= i < |s| ==> IsSpace(s[i])
  }

  /** strings.Split(s, "\n"). */
  function Lines(s: string): (ls: seq<string>)
    ensures |ls| >= 1
  {
    if s == "" then [""]
    else
      var rest := Lines(s[1..]);
      if s[0] == '\n' then [""] + rest else [[s[0]] + rest[0]] + rest[1..]
  }

  datatype Binding = Binding(uri: string, response: string)

  /** strings.SplitN(s, " ", 2) as a pair, or None when there is no space. */
  function Cut(s: string): (b: Option<Binding>)
  {
    if s == "" then None
    else if s[0] == ' ' then Some(Binding("", s[1..]))
    else
      match Cut(s[1..])
      case None => None
      case Some(b) => Some(b.(uri := [s[0]] + b.uri))
  }

  /** The bindings read so far, and the number of the line that could not be parsed, if any. */
  datatype Parsed = Parsed(table: map<string, string>, badLine: Option<nat>)

  function Parse(lines: seq<string>, n: nat, table: map<string, string>): (p: Parsed)
    decreases |lines|
  {
    if lines == [] then Parsed(table, None)
    else if Blank(lines[0]) then Parse(lines[1..], n + 1, table)
    else
      match Cut(lines[0])
      case None => Parsed(table, Some(n))
      case Some(b) => Parse(lines[1..], n + 1, table[b.uri := b.response])
  }

  class Server {
    var uriToResponse: map<string, string>

    constructor ()
      ensures uriToResponse == map[]
    {
      uriToResponse := map[];
    }

    /** Reads the file line by line into the table; stops at the first line without a space. */
    method ParseData(data: string) returns (badLine: Option<nat>)
      modifies this
      ensures Parsed(uriToResponse, badLine) == Parse(Lines(data), 0, old(uriToResponse))
    {
      var lines := Lines(data);
      for n := 0 to |lines|
        invariant Parse(lines, 0, old(uriToResponse)) == Parse(lines[n..], n, uriToResponse)
      {
        assert lines[n..][0] == lines[n] && lines[n..][1..] == lines[n + 1..];
        if Blank(lines[n]) {
          continue;
        }
        var parts := Cut(lines[n]);
        if parts.None? {
          return Some(n);
        }
        uriToResponse := uriToResponse[parts.value.uri := parts.value.response];
      }
      return None;
    }

    /** The HTTP handler: 200 with the stored response, or 404. */
    method Handle(uri: string) returns (status: int, body: string)
      ensures uri in uriToResponse ==> status == 200 && body == uriToResponse[uri]
      ensures uri !in uriToResponse ==> status == 404 && body == ""
    {
      if uri in uriToResponse {
        return 200, uriToResponse[uri];
      }
      return 404, "";
    }
  }

  // ---------------------------------------------------------------- printing

  function Line(b: Binding): (s: string)
  {
    b.uri + " " + b.response
  }

  function Print(bs: seq<Binding>): (s: string)
  {
    if bs == [] then "" else if |bs| == 1 then Line(bs[0]) else Line(bs[0]) + "\n" + Print(bs[1..])
  }

  predicate Printable(b: Binding)
  {
    ' ' !in b.uri && '\n' !in b.uri && '\n' !in b.response
  }

  /** The response the file promises for a URI: that of its last line, blank lines aside. */
  function LastResponse(bs: seq<Binding>, uri: string): (r: Option<string>)
    decreases |bs|
  {
    if bs == [] then None
    else
      var last := bs[|bs| - 1];
      if last.uri == uri && !Blank(Line(last)) then Some(last.response) else LastResponse(bs[..|bs| - 1], uri)
  }

  lemma {:induction false} LinesOfOne(s: string)
    requires '\n' !in s
    ensures Lines(s) == [s]
    decreases |s|
  {
    if s != "" {
      LinesOfOne(s[1..]);
      assert s == [s[0]] + s[1..];
    }
  }

  lemma {:induction false} LinesOfTwo(s: string, t: string)
    requires '\n' !in s
    ensures Lines(s + "\n" + t) == [s] + Lines(t)
    decreases |s|
  {
    if s == "" {
      assert (s + "\n" + t)[1..] == t;
    } else {
      LinesOfTwo(s[1..], t);
      assert s == [s[0]] + s[1..];
      assert (s + "\n" + t)[1..] == s[1..] + "\n" + t;
    }
  }

  lemma {:induction false} CutLine(b: Binding)
    requires ' ' !in b.uri
    ensures Cut(Line(b)) == Some(b)
    decreases |b.uri|
  {
    if b.uri == "" {
      assert Line(b)[1..] == b.response;
    } else {
      var shorter := b.(uri := b.uri[1..]);
      CutLine(shorter);
      assert b.uri == [b.uri[0]] + shorter.uri;
      assert Line(b)[1..] == Line(shorter);
    }
  }

  function Texts(bs: seq<Binding>): (ls: seq<string>)
    ensures |ls| == |bs|
    ensures forall i :: 0 <= i < |bs| ==> ls[i] == Line(bs[i])
  {
    if bs == [] then [] else [Line(bs[0])] + Texts(bs[1..])
  }

  lemma {:induction false} PrintedLines(bs: seq<Binding>)
    requires bs != [] && forall i :: 0 <= i < |bs| ==> Printable(bs[i])
    ensures Lines(Print(bs)) == Texts(bs)
    decreases |bs|
  {
    if |bs| == 1 {
      LinesOfOne(Line(bs[0]));
    } else {
      PrintedLines(bs[1..]);
      LinesOfTwo(Line(bs[0]), Print(bs[1..]));
    }
  }

  lemma {:induction false} ParseSnoc(lines: seq<string>, l: string, n: nat, table: map<string, string>)
    requires Parse(lines, n, table).badLine.None?
    ensures var p := Parse(lines, n, table); Parse(lines + [l], n, table) == Parse([l], n + |lines|, p.table)
    decreases |lines|
  {
    if lines == [] {
      assert lines + [l] == [l];
    } else {
      assert (lines + [l])[1..] == lines[1..] + [l];
      if Blank(lines[0]) {
        ParseSnoc(lines[1..], l, n + 1, table);
      } else {
        var b := Cut(lines[0]).value;
        ParseSnoc(lines[1..], l, n + 1, table[b.uri := b.response]);
      }
    }
  }

  lemma {:induction false} ParsedTexts(bs: seq<Binding>)
    requires forall i :: 0 <= i < |bs| ==> Printable(bs[i])
    ensures var p := Parse(Texts(bs), 0, map[]);
            && p.badLine.None?
            && forall uri :: LastResponse(bs, uri) == if uri in p.table then Some(p.table[uri]) else None
    decreases |bs|
  {
    if bs != [] {
      var init, last := bs[..|bs| - 1], bs[|bs| - 1];
      ParsedTexts(init);
      TextsSnoc(init, last);
      assert bs == init + [last];
      ParseSnoc(Texts(init), Line(last), 0, map[]);
      ParseOne(last, |init|, Parse(Texts(init), 0, map[]).table);
    }
  }

  lemma TextsSnoc(bs: seq<Binding>, b: Binding)
    ensures Texts(bs + [b]) == Texts(bs) + [Line(b)]
  {
  }

  lemma ParseOne(b: Binding, n: nat, table: map<string, string>)
    requires Printable(b)
    ensures Parse([Line(b)], n, table) == Parsed(if Blank(Line(b)) then table else table[b.uri := b.response], None)
  {
    CutLine(b);
    assert [Line(b)][1..] == [];
  }

  /** The round trip: printing any bindings and reading them back serves, for every URI, the response
      of its last line, provided that line is not blank, and fails on none. */
  lemma RoundTrip(bs: seq<Binding>)
    requires forall i :: 0 <= i < |bs| ==> Printable(bs[i])
    ensures var p := Parse(Lines(Print(bs)), 0, map[]);
            && p.badLine.None?
            && forall uri :: LastResponse(bs, uri) == if uri in p.table then Some(p.table[uri]) else None
  {
    if bs == [] {
      assert Lines(Print(bs)) == [""];
      assert Parse([""], 0, map[]) == Parse([], 1, map[]);
    } else {
      PrintedLines(bs);
      ParsedTexts(bs);
    }
  }

  /** A single binding survives exactly when its line is not all white space. */
  lemma SurvivesIff(b: Binding)
    requires Printable(b)
    ensures Parse(Lines(Print([b])), 0, map[]).table ==
            if Blank(b.uri) && Blank(b.response) then map[] else map[b.uri := b.response]
  {
    RoundTrip([b]);
    var table := Parse(Lines(Print([b])), 0, map[]).table;
    assert [b][..0] == [];
    assert forall uri :: LastResponse([b], uri) == if b.uri == uri && !Blank(Line(b)) then Some(b.response) else None;
    assert Blank(Line(b)) <==> Blank(b.uri) && Blank(b.response) by {
      if Blank(Line(b)) {
        assert forall i :: 0 <= i < |b.uri| ==> b.uri[i] == Line(b)[i];
        assert forall i :: 0 <= i < |b.response| ==> b.response[i] == Line(b)[|b.uri| + 1 + i];
      }
    }
    assert forall uri :: uri in table <==> LastResponse([b], uri).Some?;
  }

  /** A tab is a URI without spaces or newlines, yet with an empty response it is dropped. */
  lemma TabIsDropped()
    ensures Printable(Binding("\t", "")) && Parse(Lines(Print([Binding("\t", "")])), 0, map[]).table == map[]
  {
  }

  /** Tokens of section 8.3 of RFC 8555 use the base64url alphabet. */
  predicate Base64Url(s: string)
  {
    forall i :: 0 <= i < |s| ==>
                  'A' <= s[i] <= 'Z' || 'a' <= s[i] <= 'z' || '0' <= s[i] <= '9' || s[i] == '-' || s[i] == '_'
  }

  predicate Clean(s: string)
  {
    forall i :: 0 <= i < |s| ==> !IsSpace(s[i])
  }

  lemma CleanConcat(s: string, t: string)
    requires Clean(s) && Clean(t)
    ensures Clean(s + t)
  {
  }

  /** What the controller actually writes is served back verbatim. */
  lemma ChallengeIsServed(token: string, thumbprint: string)
    requires Base64Url(token) && Base64Url(thumbprint)
    ensures var b := Binding(CHALLENGE_PREFIX + token, token + "." + thumbprint);
            Parse(Lines(Line(b)), 0, map[]) == Parsed(map[b.uri := b.response], None)
  {
    var b := Binding(CHALLENGE_PREFIX + token, token + "." + thumbprint);
    CleanConcat(CHALLENGE_PREFIX, token);
    CleanConcat(token, ".");
    CleanConcat(token + ".", thumbprint);
    ServedIfClean(b);
  }

  lemma ServedIfClean(b: Binding)
    requires Clean(b.uri) && Clean(b.response) && b.uri != ""
    ensures Parse(Lines(Line(b)), 0, map[]) == Parsed(map[b.uri := b.response], None)
  {
    assert !IsSpace(b.uri[0]);
    SurvivesIff(b);
    RoundTrip([b]);
  }

  /** A parse error at line n leaves exactly the bindings of the lines before it. */
  lemma {:induction false} ErrorKeepsEarlierLines(lines: seq<string>, n: nat, table: map<string, string>)
    requires Parse(lines, n, table).badLine.Some?
    ensures var p := Parse(lines, n, table); var k := p.badLine.value - n;
            && 0 <= k < |lines|
            && Parse(lines[..k], n, table) == Parsed(p.table, None)
            && !Blank(lines[k]) && Cut(lines[k]).None?
    decreases |lines|
  {
    if Blank(lines[0]) {
      ErrorKeepsEarlierLines(lines[1..], n + 1, table);
      var k := Parse(lines, n, table).badLine.value - n;
      assert lines[..k][1..] == lines[1..][..k - 1];
    } else if Cut(lines[0]).Some? {
      var b := Cut(lines[0]).value;
      ErrorKeepsEarlierLines(lines[1..], n + 1, table[b.uri := b.response]);
      var k := Parse(lines, n, table).badLine.value - n;
      assert lines[..k][1..] == lines[1..][..k - 1];
    }
  }

  /** A line is rejected exactly when it has no space at all. */
  lemma {:induction false} CutFailsIff(s: string)
    ensures Cut(s).None? <==> ' ' !in s
    ensures Cut(s).Some? ==> Line(Cut(s).value) == s && ' ' !in Cut(s).value.uri
    decreases |s|
  {
    if s != "" {
      CutFailsIff(s[1..]);
      if s[0] != ' ' && Cut(s[1..]).Some? {
        assert s == [s[0]] + s[1..];
      }
    }
  }
}
