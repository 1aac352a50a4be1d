/** The origin's conditional responses: entity tags, If-None-Match and If-Modified-Since. */
module Origin {
  import opened Prelude

  type HeaderList = seq<(string, string)>

  /** The parts of the standard library the decision uses: a digest of 16 characters, and HTTP dates. */
  datatype Library = Library(digest: bytes -> string, formatDate: int -> string, parseDate: string -> Option<int>)

  ghost predicate LawfulLibrary(l: Library) {
    && (forall b: bytes :: |l.digest(b)| == 16 && forall ch <- l.digest(b) :: IsHex(ch))
    && (forall t: int :: l.parseDate(l.formatDate(t)) == Some(t))
  }

  predicate IsHex(ch: char) { '0' <= ch <= '9' || 'a' <= ch <= 'f' }

  /** What a file holds at some moment. */
  datatype Version = Version(body: bytes, mtime: int, contentType: string, standIn: bool)

  datatype Verb = Get | Head | Other

  datatype Response = Response(status: nat, headers: HeaderList, body: bytes)

  function Tag(l: Library, body: bytes): string { "\"" + l.digest(body) + "\"" }

  // ---------------------------------------------------------------------------------- parsing tags

  predicate IsSpace(ch: char) {
    var n := ch as int;
    9 <= n <= 13 || 28 <= n <= 32 || n == 133 || n == 160
  }

  function SplitCommas(s: string): (r: seq<string>)
    ensures |r| >= 1
  {
    if s == "" then [""]
    else
      var rest := SplitCommas(s[1..]);
      if s[0] == ',' then [""] + rest else [[s[0]] + rest[0]] + rest[1..]
  }

  function Strip(s: string): string {
    if s == "" then ""
    else if IsSpace(s[0]) then Strip(s[1..])
    else if IsSpace(s[|s| - 1]) then Strip(s[..|s| - 1])
    else s
  }

  /** W/ marks a weak tag; it is compared like a strong one. */
  function Strong(s: string): string {
    if |s| >= 2 && s[0] == 'W' && s[1] == '/' then s[2..] else s
  }

  function Each(parts: seq<string>): seq<string> {
    if parts == [] then [] else [Strong(Strip(parts[0]))] + Each(parts[1..])
  }

  function Tags(inm: string): seq<string> { Each(SplitCommas(inm)) }

  /** If-None-Match takes precedence over If-Modified-Since (section 13.2.2 of RFC 9110). */
  predicate NotModified(l: Library, inm: Option<string>, ims: Option<string>, etag: string, mtime: int) {
    if inm.Some? then "*" in Tags(inm.value) || etag in Tags(inm.value)
    else if ims.Some? then
      var since := l.parseDate(ims.value);
      since.Some? && mtime <= since.value
    else false
  }

  function VersionHeaders(l: Library, v: Version): HeaderList {
    [("Content-Type", v.contentType), ("ETag", Tag(l, v.body)), ("Last-Modified", l.formatDate(v.mtime)),
     ("Cache-Control", "no-cache")] + if v.standIn then [("X-Stand-In", "1")] else []
  }

  const NOT_FOUND: bytes := [110, 111, 116, 32, 102, 111, 117, 110, 100, 10]

  function Respond(l: Library, verb: Verb, v: Option<Version>, inm: Option<string>, ims: Option<string>): Response {
    if verb.Other? then Response(501, [], [])
    else if v.None? then Response(404, [("Content-Type", "text/plain")], if verb.Get? then NOT_FOUND else [])
    else if NotModified(l, inm, ims, Tag(l, v.value.body), v.value.mtime)
    then Response(304, VersionHeaders(l, v.value), [])
    else Response(200, VersionHeaders(l, v.value), if verb.Get? then v.value.body else [])
  }

  // ------------------------------------------------------------------------------------ properties

  /** A tag as servers write them: no comma, no blank at either end, not the wildcard or a weak mark. */
  predicate Plain(t: string) {
    |t| > 0 && ',' !in t && !IsSpace(t[0]) && !IsSpace(t[|t| - 1]) && t != "*" && t[0] != 'W'
  }

  lemma TagIsPlain(l: Library, body: bytes)
    requires LawfulLibrary(l)
    ensures Plain(Tag(l, body)) && Tag(l, body) != ""
    ensures Tag(l, body)[1..17] == l.digest(body)
  {
    var t := Tag(l, body);
    assert t[1..17] == l.digest(body);
    forall ch <- t ensures ch != ',' {
      assert ch == '\"' || ch in l.digest(body);
    }
  }

  /** A browser's list: each tag strong or weak, separated by comma and blank. */
  datatype Listed = Listed(tag: string, weak: bool)

  function Written(x: Listed): string { if x.weak then "W/" + x.tag else x.tag }

  function Joined(list: seq<Listed>): string
    requires list != []
  {
    Written(list[0]) + Continued(list[1..])
  }

  function Continued(list: seq<Listed>): string {
    if list == [] then "" else "," + ((" " + Written(list[0])) + Continued(list[1..]))
  }

  function Named(list: seq<Listed>): seq<string> {
    if list == [] then [] else [list[0].tag] + Named(list[1..])
  }

  lemma {:induction false} SplitOne(s: string)
    requires ',' !in s
    ensures SplitCommas(s) == [s]
  {
    if s != "" {
      SplitOne(s[1..]);
      assert [s[0]] + s[1..] == s;
    }
  }

  lemma {:induction false} SplitFirst(s: string, rest: string)
    requires ',' !in s
    ensures SplitCommas(s + "," + rest) == [s] + SplitCommas(rest)
  {
    var all := s + "," + rest;
    if s == "" {
      assert all[1..] == rest;
    } else {
      assert all[1..] == s[1..] + "," + rest;
      SplitFirst(s[1..], rest);
      assert [s[0]] + s[1..] == s;
    }
  }

  lemma CleanWritten(x: Listed)
    requires Plain(x.tag)
    ensures ',' !in Written(x)
    ensures Strong(Strip(Written(x))) == x.tag && Strong(Strip(" " + Written(x))) == x.tag
  {
    var w := Written(x);
    assert !IsSpace(w[0]) && !IsSpace(w[|w| - 1]);
    assert Strip(w) == w;
    assert (" " + w)[1..] == w;
    if x.weak {
      assert w[2..] == x.tag;
    }
  }

  lemma CommaFree(w: string)
    ensures ',' in " " + w <==> ',' in w
  {
    assert forall i :: 0 <= i < |w| ==> (" " + w)[i + 1] == w[i];
  }

  lemma {:induction false} TagsBehind(head: string, rest: seq<Listed>)
    requires ',' !in head && forall x <- rest :: Plain(x.tag)
    ensures Each(SplitCommas(head + Continued(rest))) == [Strong(Strip(head))] + Named(rest)
    decreases rest
  {
    hide Strip, Strong, SplitCommas, Plain, Written;
    if rest == [] {
      assert head + "" == head;
      SplitOne(head);
      OneEach(head);
    } else {
      var next := " " + Written(rest[0]);
      CleanWritten(rest[0]);
      CommaFree(Written(rest[0]));
      var more := next + Continued(rest[1..]);
      SplitFirst(head, more);
      assert head + Continued(rest) == head + "," + more;
      TagsBehind(next, rest[1..]);
      EachMore(head, SplitCommas(more));
      hide Each, Continued;
      assert [Strong(Strip(head))] + ([rest[0].tag] + Named(rest[1..])) == [Strong(Strip(head))] + Named(rest);
    }
  }

  lemma OneEach(s: string)
    ensures Each([s]) == [Strong(Strip(s))]
  {
    assert [s][1..] == [];
  }

  lemma EachMore(s: string, parts: seq<string>)
    ensures Each([s] + parts) == [Strong(Strip(s))] + Each(parts)
  {
    hide Strip, Strong;
    assert ([s] + parts)[1..] == parts;
  }

  /** Splitting, stripping and unmarking undo the browser's writing. */
  lemma TagsOfJoined(list: seq<Listed>)
    requires list != [] && forall x <- list :: Plain(x.tag)
    ensures Tags(Joined(list)) == Named(list)
  {
    hide Strip, Strong, SplitCommas, Plain, Written, Each;
    CleanWritten(list[0]);
    TagsBehind(Written(list[0]), list[1..]);
  }

  lemma {:induction false} NamedArePlain(list: seq<Listed>)
    requires forall x <- list :: Plain(x.tag)
    ensures "*" !in Named(list)
  {
    if list != [] {
      NamedArePlain(list[1..]);
    }
  }

  /** The origin answers 304 to a list of tags exactly when the list names its current tag, weakly or not,
      whatever If-Modified-Since says. */
  lemma MatchesExactlyWhenNamed(l: Library, list: seq<Listed>, ims: Option<string>, etag: string, mtime: int)
    requires list != [] && forall x <- list :: Plain(x.tag)
    ensures NotModified(l, Some(Joined(list)), ims, etag, mtime) <==> etag in Named(list)
  {
    TagsOfJoined(list);
    NamedArePlain(list);
  }

  /** One tag, as the proxy's cache sends it. */
  lemma MatchesOneTag(l: Library, t: string, ims: Option<string>, etag: string, mtime: int)
    requires Plain(t)
    ensures NotModified(l, Some(t), ims, etag, mtime) <==> t == etag
  {
    MatchesExactlyWhenNamed(l, [Listed(t, false)], ims, etag, mtime);
    assert [Listed(t, false)][1..] == [];
    assert Joined([Listed(t, false)]) == t + "" == t;
    assert Named([Listed(t, false)]) == [t] + Named([]);
  }

  /** Without tags the date decides: to the date that a page was served with, the origin answers 304 exactly if the
      file has not changed since; a date that cannot be read counts for nothing, and neither does a request
      without either. */
  lemma DatesDecideWithoutTags(l: Library, verb: Verb, seen: Version, v: Version, ims: Option<string>)
    requires LawfulLibrary(l) && !verb.Other?
    ensures Respond(l, verb, Some(v), None, Some(l.formatDate(seen.mtime))).status ==
            if v.mtime <= seen.mtime then 304 else 200
    ensures ims.None? || l.parseDate(ims.value).None? ==> Respond(l, verb, Some(v), None, ims).status == 200
  {
    hide VersionHeaders, Tag;
  }

  predicate Blank(s: string) { forall ch <- s :: IsSpace(ch) }

  /** Stripping takes off all blanks at both ends, and nothing else. */
  lemma {:induction false} StripTakesOffBlanks(before: string, core: string, after: string)
    requires Blank(before) && Blank(after)
    requires core != "" ==> !IsSpace(core[0]) && !IsSpace(core[|core| - 1])
    ensures Strip(before + core + after) == core
    decreases |before| + |after|
  {
    hide IsSpace;
    var s := before + core + after;
    if before != "" {
      assert s[1..] == before[1..] + core + after;
      StripTakesOffBlanks(before[1..], core, after);
    } else if core == "" {
      AllBlank(after);
      assert s == after;
    } else if after != "" {
      assert s[..|s| - 1] == before + core + after[..|after| - 1];
      StripTakesOffBlanks(before, core, after[..|after| - 1]);
    } else {
      assert s == core;
    }
  }

  lemma {:induction false} AllBlank(s: string)
    requires Blank(s)
    ensures Strip(s) == ""
  {
    hide IsSpace;
    if s != "" {
      AllBlank(s[1..]);
    }
  }

  /** A request for the head alone is answered like one for the page, without the body; the body is the page's, or
      the message that there is none; and no other method is served. */
  lemma HeadIsTheSameWithoutBody(l: Library, v: Option<Version>, inm: Option<string>, ims: Option<string>)
    ensures var get, head := Respond(l, Get, v, inm, ims), Respond(l, Head, v, inm, ims);
            && head == get.(body := [])
            && (get.status == 200 ==> v.Some? && get.body == v.value.body)
            && (get.status == 404 <==> v.None?) && (get.status == 404 ==> get.body == NOT_FOUND)
            && (get.status == 304 ==> get.body == [])
            && (get.status == 200 || get.status == 304 ==> get.headers == VersionHeaders(l, v.value))
    ensures Respond(l, Other, v, inm, ims).status == 501
  {
    hide NotModified, VersionHeaders;
  }
}
