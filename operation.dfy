/** The tool-call string of an approved proposal, `name&k=v&k=v...`, and how
    the executor splits it into a name and a parameter dict
    (agent/agentmodule.py:334-340). */
module Operation {
  import opened Wrappers

  /** str.split(sep) for a one-character separator: the pieces between the
      separators, always at least one. */
  function Split(s: string, sep: char): (parts: seq<string>)
    ensures |parts| >= 1
    ensures forall i :: 0 <= i < |parts| ==> sep !in parts[i]
    ensures Join(parts, sep) == s
  {
    if s == [] then [""]
    else
      var rest := Split(s[1..], sep);
      if s[0] == sep then [""] + rest
      else [[s[0]] + rest[0]] + rest[1..]
  }

  /** sep.join(parts). */
  function Join(parts: seq<string>, sep: char): string
    requires |parts| >= 1
  {
    if |parts| == 1 then parts[0] else parts[0] + [sep] + Join(parts[1..], sep)
  }

  lemma {:induction false} SplitWithout(s: string, sep: char)
    requires sep !in s
    ensures Split(s, sep) == [s]
  {
    if s != [] {
      SplitWithout(s[1..], sep);
      assert [s[0]] + s[1..] == s;
    }
  }

  /** Splitting at the first separator. */
  lemma {:induction false} SplitFirst(a: string, b: string, sep: char)
    requires sep !in a
    ensures Split(a + [sep] + b, sep) == [a] + Split(b, sep)
  {
    if a == [] {
      assert a + [sep] + b == [sep] + b;
      assert ([sep] + b)[1..] == b;
    } else {
      assert (a + [sep] + b)[1..] == a[1..] + [sep] + b;
      SplitFirst(a[1..], b, sep);
      assert [a[0]] + a[1..] == a;
    }
  }

  /** Splitting undoes joining pieces that hold no separator. */
  lemma {:induction false} SplitJoin(parts: seq<string>, sep: char)
    requires |parts| >= 1
    requires forall i :: 0 <= i < |parts| ==> sep !in parts[i]
    ensures Split(Join(parts, sep), sep) == parts
  {
    if |parts| == 1 {
      SplitWithout(parts[0], sep);
    } else {
      SplitJoin(parts[1..], sep);
      SplitFirst(parts[0], Join(parts[1..], sep), sep);
      assert [parts[0]] + parts[1..] == parts;
    }
  }

  /** A parsed tool call: the name selects the tool, the dict holds its
      parameters. */
  datatype ToolCall = ToolCall(name: string, params: map<string, string>)

  /** The ValueError of unpacking `param.split('=')` into `k, v`. */
  datatype ParseError =
    | NotEnoughValues(segment: string)  // the segment has no '='
    | TooManyValues(segment: string)    // the segment has more than one '='

  /** Each parameter segment split on '=' into a key and a value; the first
      segment that does not split into exactly two raises. */
  function ParsePairs(segments: seq<string>): (r: Result<seq<(string, string)>, ParseError>)
    ensures r.Success? ==> |r.value| == |segments|
    ensures r.Success? ==> forall i :: 0 <= i < |segments| ==> segments[i] == r.value[i].0 + "=" + r.value[i].1
    ensures r.Failure? <==> exists i :: 0 <= i < |segments| && |Split(segments[i], '=')| != 2
  {
    if segments == [] then Success([])
    else
      var kv := Split(segments[0], '=');
      if |kv| < 2 then Failure(NotEnoughValues(segments[0]))
      else if |kv| > 2 then Failure(TooManyValues(segments[0]))
      else
        match ParsePairs(segments[1..])
        case Failure(e) =>
          assert exists i :: 1 <= i < |segments| && |Split(segments[i], '=')| != 2 by {
            var i :| 0 <= i < |segments[1..]| && |Split(segments[1..][i], '=')| != 2;
            assert segments[1..][i] == segments[i + 1];
          }
          Failure(e)
        case Success(rest) =>
          assert forall i :: 1 <= i < |segments| ==> segments[i] == segments[1..][i - 1];
          assert Join(kv[1..], '=') == kv[1];
          assert segments[0] == kv[0] + "=" + kv[1];
          Success([(kv[0], kv[1])] + rest)
  }

  /** The dict comprehension: pairs in order, a later key overwriting an
      earlier one. */
  function BuildParams(pairs: seq<(string, string)>): (m: map<string, string>)
    ensures forall k :: k in m <==> exists i :: 0 <= i < |pairs| && pairs[i].0 == k
  {
    if pairs == [] then map[]
    else
      var init := pairs[..|pairs| - 1];
      var m := BuildParams(init);
      assert forall i :: 0 <= i < |init| ==> init[i] == pairs[i];
      m[pairs[|pairs| - 1].0 := pairs[|pairs| - 1].1]
  }

  /** Duplicate keys: the value of a key is the one of its last occurrence. */
  lemma {:induction false} LastWriteWins(pairs: seq<(string, string)>, i: nat)
    requires i < |pairs|
    requires forall j :: i < j < |pairs| ==> pairs[j].0 != pairs[i].0
    ensures BuildParams(pairs)[pairs[i].0] == pairs[i].1
    decreases |pairs|
  {
    if i < |pairs| - 1 {
      var init := pairs[..|pairs| - 1];
      assert init[i] == pairs[i];
      LastWriteWins(init, i);
    }
  }

  /** The executor's parse: the name is everything before the first '&'; a
      malformed parameter segment raises. */
  function Parse(funcCall: string): (r: Result<ToolCall, ParseError>)
    ensures r.Success? ==> r.value.name == Split(funcCall, '&')[0] && '&' !in r.value.name
    ensures r.Success? ==> funcCall == r.value.name || (r.value.name + "&" <= funcCall)
    ensures r.Failure? <==> exists i :: 1 <= i < |Split(funcCall, '&')| && |Split(Split(funcCall, '&')[i], '=')| != 2
  {
    var segments := Split(funcCall, '&');
    match ParsePairs(segments[1..])
    case Failure(e) =>
      assert exists i :: 1 <= i < |segments| && |Split(segments[i], '=')| != 2 by {
        var j :| 0 <= j < |segments[1..]| && |Split(segments[1..][j], '=')| != 2;
        assert segments[1..][j] == segments[j + 1];
      }
      Failure(e)
    case Success(pairs) =>
      assert forall i :: 1 <= i < |segments| ==> |Split(segments[i], '=')| == 2 by {
        forall i | 1 <= i < |segments| ensures |Split(segments[i], '=')| == 2 {
          assert segments[1..][i - 1] == segments[i];
        }
      }
      Success(ToolCall(segments[0], BuildParams(pairs)))
  }

  /** The tool-call string for a name and parameters in order. */
  function Serialize(name: string, pairs: seq<(string, string)>): string
  {
    Join([name] + Segments(pairs), '&')
  }

  function Segments(pairs: seq<(string, string)>): (segs: seq<string>)
    ensures |segs| == |pairs|
    ensures forall i :: 0 <= i < |pairs| ==> segs[i] == pairs[i].0 + "=" + pairs[i].1
  {
    if pairs == [] then [] else [pairs[0].0 + "=" + pairs[0].1] + Segments(pairs[1..])
  }

  /** Keys and values the grammar can carry: neither contains a delimiter. */
  predicate Plain(s: string)
  {
    '&' !in s && '=' !in s
  }

  lemma {:induction false} ParseSegments(pairs: seq<(string, string)>)
    requires forall i :: 0 <= i < |pairs| ==> Plain(pairs[i].0) && Plain(pairs[i].1)
    ensures ParsePairs(Segments(pairs)) == Success(pairs)
  {
    if pairs != [] {
      var (k, v) := pairs[0];
      SplitWithout(v, '=');
      SplitFirst(k, v, '=');
      assert k + "=" + v == k + ['='] + v;
      assert Segments(pairs)[1..] == Segments(pairs[1..]);
      ParseSegments(pairs[1..]);
      assert [pairs[0]] + pairs[1..] == pairs;
    }
  }

  /** Round trip: a name without '&' and delimiter-free keys and values
      serialize to a string that parses back to that name and the
      last-write-wins dict of the pairs. */
  lemma RoundTrip(name: string, pairs: seq<(string, string)>)
    requires '&' !in name
    requires forall i :: 0 <= i < |pairs| ==> Plain(pairs[i].0) && Plain(pairs[i].1)
    ensures Parse(Serialize(name, pairs)) == Success(ToolCall(name, BuildParams(pairs)))
  {
    var parts := [name] + Segments(pairs);
    forall i | 0 <= i < |parts| ensures '&' !in parts[i] {
      if i > 0 {
        var p := pairs[i - 1];
        assert parts[i] == p.0 + "=" + p.1;
      }
    }
    SplitJoin(parts, '&');
    assert parts[1..] == Segments(pairs);
    ParseSegments(pairs);
  }

  /** The example search call serializes to the text
      "search&query=cats&search_engine=bing". */
  lemma SearchExampleText()
    ensures Serialize("search", [("query", "cats"), ("search_engine", "bing")]) == "search&query=cats&search_engine=bing"
  {
    var pairs := [("query", "cats"), ("search_engine", "bing")];
    var s0, s1 := "query" + "=" + "cats", "search_engine" + "=" + "bing";
    assert s0 == "query=cats" && s1 == "search_engine=bing";
    assert Segments(pairs) == [s0, s1];
    var parts := ["search", s0, s1];
    assert ["search"] + Segments(pairs) == parts;
    assert parts[1..][1..] == [s1];
    assert Join(parts[1..], '&') == s0 + "&" + s1;
    assert Join(parts, '&') == "search" + "&" + (s0 + "&" + s1);
  }

  /** The example search call "search&query=cats&search_engine=bing" parses
      to the name "search" with two parameters. */
  lemma SearchExample()
    ensures Serialize("search", [("query", "cats"), ("search_engine", "bing")]) == "search&query=cats&search_engine=bing"
    ensures Parse(Serialize("search", [("query", "cats"), ("search_engine", "bing")])) ==
      Success(ToolCall("search", map["query" := "cats", "search_engine" := "bing"]))
  {
    SearchExampleText();
    var pairs := [("query", "cats"), ("search_engine", "bing")];
    var p0, p1 := pairs[0], pairs[1];
    assert Plain(p0.0) && Plain(p0.1) && Plain(p1.0) && Plain(p1.1);
    RoundTrip("search", pairs);
    assert pairs[..1] == [p0] && [p0][..0] == [];
    assert BuildParams(pairs) == map["query" := "cats", "search_engine" := "bing"];
  }

}
