/** Topic names and topic filters: splitting into levels, matching a filter against
    a topic, and deciding whether one filter covers another
    (sections 4.7.1 and 4.7.2 of MQTT Version 5.0). */
module Topics {
  import Utf8

  // --- levels ------------------------------------------------------------------

  /** The `/`-separated levels of a string; the empty string has one, empty, level. */
  function Split(s: string): (levels: seq<string>)
    ensures |levels| >= 1
  {
    if s == "" then [""]
    else
      var rest := Split(s[1..]);
      if s[0] == '/' then [""] + rest else [[s[0]] + rest[0]] + rest[1..]
  }

  function Join(levels: seq<string>): string
  {
    if |levels| == 0 then ""
    else if |levels| == 1 then levels[0]
    else levels[0] + "/" + Join(levels[1..])
  }

  /** A level as `Split` produces it. */
  predicate IsLevel(level: string) {
    '/' !in level
  }

  predicate AreLevels(levels: seq<string>) {
    |levels| >= 1 && forall i | 0 <= i < |levels| :: IsLevel(levels[i])
  }

  lemma {:induction false} SplitGivesLevels(s: string)
    ensures AreLevels(Split(s))
    ensures Join(Split(s)) == s
  {
    if s != "" {
      SplitGivesLevels(s[1..]);
      var rest := Split(s[1..]);
      if s[0] == '/' {
        assert Split(s)[1..] == rest;
      } else if |rest| > 1 {
        assert Split(s)[1..] == rest[1..];
        assert Join(Split(s)) == ([s[0]] + rest[0]) + "/" + Join(rest[1..]);
        assert Join(rest) == rest[0] + "/" + Join(rest[1..]);
      }
    }
  }

  lemma {:induction false} SplitLevel(level: string)
    requires IsLevel(level)
    ensures Split(level) == [level]
  {
    if level != "" {
      assert IsLevel(level[1..]);
      SplitLevel(level[1..]);
      assert level == [level[0]] + level[1..];
    }
  }

  lemma {:induction false} SplitLevelThen(level: string, tail: string)
    requires IsLevel(level)
    ensures Split(level + "/" + tail) == [level] + Split(tail)
    decreases |level|
  {
    var s := level + "/" + tail;
    if level == "" {
      assert s[1..] == tail;
    } else {
      assert s[1..] == level[1..] + "/" + tail;
      assert IsLevel(level[1..]);
      SplitLevelThen(level[1..], tail);
      assert level == [level[0]] + level[1..];
    }
  }

  lemma {:induction false} SplitJoin(levels: seq<string>)
    requires AreLevels(levels)
    ensures Split(Join(levels)) == levels
  {
    if |levels| == 1 {
      SplitLevel(levels[0]);
    } else {
      SplitJoin(levels[1..]);
      SplitLevelThen(levels[0], Join(levels[1..]));
    }
  }

  // --- matching ----------------------------------------------------------------

  predicate StartsWith(s: string, c: char) {
    s != "" && s[0] == c
  }

  predicate IsWild(level: string) {
    level == "+" || level == "#"
  }

  /** Whether a filter begins with a wildcard character. */
  predicate WildFirst(filter: string) {
    StartsWith(filter, '+') || StartsWith(filter, '#')
  }

  /** Level by level: `#` accepts whatever is left, `+` exactly one level. */
  predicate LevelsMatch(filter: seq<string>, topic: seq<string>) {
    if filter != [] && filter[0] == "#" then true
    else if filter == [] || topic == [] then filter == [] && topic == []
    else (filter[0] == "+" || filter[0] == topic[0]) && LevelsMatch(filter[1..], topic[1..])
  }

  predicate Matches(filter: string, topic: string) {
    !(StartsWith(topic, '$') && WildFirst(filter)) && LevelsMatch(Split(filter), Split(topic))
  }

  /** The number of levels before the first `#`. */
  function Fixed(filter: seq<string>): (n: nat)
    ensures n <= |filter|
    ensures n < |filter| ==> filter[n] == "#"
    ensures forall i | 0 <= i < n :: filter[i] != "#"
  {
    if filter == [] || filter[0] == "#" then 0 else 1 + Fixed(filter[1..])
  }

  /** The standard's own reading of a match: the levels before a `#` agree one by one,
      and without a `#` the number of levels agrees too. */
  ghost predicate StandardMatch(filter: seq<string>, topic: seq<string>) {
    var n := Fixed(filter);
    && n <= |topic|
    && (n == |filter| ==> |topic| == n)
    && forall i | 0 <= i < n :: filter[i] == "+" || filter[i] == topic[i]
  }

  /** The level-by-level walk is the standard's definition, for every filter and topic. */
  lemma {:induction false} LevelsMatchIsStandard(filter: seq<string>, topic: seq<string>)
    ensures LevelsMatch(filter, topic) <==> StandardMatch(filter, topic)
  {
    if filter != [] && filter[0] != "#" && topic != [] {
      var f, t := filter[1..], topic[1..];
      LevelsMatchIsStandard(f, t);
      assert Fixed(filter) == 1 + Fixed(f);
      if StandardMatch(filter, topic) {
        assert forall i | 0 <= i < Fixed(f) :: f[i] == filter[i + 1] && t[i] == topic[i + 1];
      }
    }
  }

  method FilterMatches(filter: string, topic: string) returns (r: bool)
    ensures r <==> !(StartsWith(topic, '$') && WildFirst(filter)) && StandardMatch(Split(filter), Split(topic))
  {
    if StartsWith(topic, '$') && (StartsWith(filter, '+') || StartsWith(filter, '#')) {
      return false;
    }
    var f, t := Split(filter), Split(topic);
    LevelsMatchIsStandard(f, t);
    var i := 0;
    while true
      invariant 0 <= i <= |f| && i <= |t|
      invariant LevelsMatch(f, t) <==> LevelsMatch(f[i..], t[i..])
      decreases |f| - i
    {
      if i < |f| && f[i] == "#" {
        return true;
      } else if i < |f| && i < |t| && (f[i] == "+" || f[i] == t[i]) {
        assert f[i..][1..] == f[i + 1..] && t[i..][1..] == t[i + 1..];
        i := i + 1;
      } else {
        return i == |f| && i == |t|;
      }
    }
  }

  // --- validity ----------------------------------------------------------------

  const MAX_TOPIC_LEVELS := 128

  predicate NoWildcard(level: string) {
    '+' !in level && '#' !in level
  }

  /** A wildcard is a whole level and `#` is the last one. */
  predicate ValidLevels(levels: seq<string>) {
    && (forall i | 0 <= i < |levels| :: NoWildcard(levels[i]) || IsWild(levels[i]))
    && (forall i | 0 <= i < |levels| - 1 :: levels[i] != "#")
  }

  /** A subscription filter the broker accepts, its size limits aside. */
  predicate ValidFilter(filter: string) {
    ValidLevels(Split(filter))
  }

  /** A topic name without wildcards. */
  predicate WildcardFree(topic: string) {
    NoWildcard(topic)
  }

  predicate PlainLevels(levels: seq<string>) {
    forall i | 0 <= i < |levels| :: NoWildcard(levels[i])
  }

  lemma PlainCons(first: string, rest: seq<string>)
    ensures PlainLevels([first] + rest) <==> NoWildcard(first) && PlainLevels(rest)
  {
    if PlainLevels([first] + rest) {
      assert NoWildcard(([first] + rest)[0]);
      forall i | 0 <= i < |rest| ensures NoWildcard(rest[i]) { assert NoWildcard(([first] + rest)[i + 1]); }
    }
  }

  lemma {:induction false} NoWildcardSplits(s: string)
    ensures NoWildcard(s) <==> PlainLevels(Split(s))
  {
    if s != "" {
      NoWildcardSplits(s[1..]);
      var rest := Split(s[1..]);
      assert s == [s[0]] + s[1..];
      if s[0] == '/' {
        PlainCons("", rest);
      } else {
        assert rest == [rest[0]] + rest[1..];
        PlainCons(rest[0], rest[1..]);
        PlainCons([s[0]] + rest[0], rest[1..]);
      }
    }
  }

  /** The broker's SUBSCRIBE check, walking the levels once. */
  method ValidSubscribeFilter(filter: string) returns (ok: bool)
    ensures ok <==> filter != "" && |Utf8.Encode(filter)| <= 0xFFFF && '\0' !in filter
                    && |Split(filter)| <= MAX_TOPIC_LEVELS && ValidFilter(filter)
  {
    var levels := Split(filter);
    if filter == "" || |Utf8.Encode(filter)| > 0xFFFF || '\0' in filter || |levels| > MAX_TOPIC_LEVELS {
      return false;
    }
    var i := 0;
    while i < |levels|
      invariant 0 <= i <= |levels|
      invariant forall j | 0 <= j < i :: NoWildcard(levels[j]) || IsWild(levels[j])
      invariant forall j | 0 <= j < i && j < |levels| - 1 :: levels[j] != "#"
    {
      var level := levels[i];
      if level == "#" && i < |levels| - 1 {
        return false;
      } else if |level| > 1 && ('+' in level || '#' in level) {
        return false;
      }
      assert |level| == 1 ==> level == [level[0]];
      i := i + 1;
    }
    return true;
  }

  // --- subsumption -------------------------------------------------------------

  predicate LevelsSubsume(rule: seq<string>, req: seq<string>) {
    if rule == [] then req == []
    else if rule[0] == "#" then true
    else if req == [] then false
    else if rule[0] == "+" then req[0] != "#" && LevelsSubsume(rule[1..], req[1..])
    else rule[0] == req[0] && LevelsSubsume(rule[1..], req[1..])
  }

  predicate Subsumes(rule: string, req: string) {
    LevelsSubsume(Split(rule), Split(req))
  }

  method FilterSubsumes(rule: string, req: string) returns (b: bool)
    ensures b == Subsumes(rule, req)
  {
    var r, q := Split(rule), Split(req);
    var i := 0;
    while true
      invariant 0 <= i <= |r| && i <= |q|
      invariant LevelsSubsume(r, q) <==> LevelsSubsume(r[i..], q[i..])
      decreases |r| - i
    {
      if i < |r| && r[i] == "#" {
        return true;
      } else if i < |r| && r[i] == "+" {
        if i == |q| || q[i] == "#" { return false; }
      } else if i < |r| && i < |q| {
        if r[i] != q[i] { return false; }
      } else {
        return i == |r| && i == |q|;
      }
      assert r[i..][1..] == r[i + 1..] && q[i..][1..] == q[i + 1..];
      i := i + 1;
    }
  }

  /** Every topic name the request matches is matched by the rule. */
  ghost predicate Covers(rule: string, req: string) {
    forall topic | WildcardFree(topic) && Matches(req, topic) :: Matches(rule, topic)
  }

  lemma {:induction false} SubsumesSound(rule: seq<string>, req: seq<string>, topic: seq<string>)
    requires LevelsSubsume(rule, req) && LevelsMatch(req, topic)
    ensures LevelsMatch(rule, topic)
  {
    if rule != [] && rule[0] != "#" {
      SubsumesSound(rule[1..], req[1..], topic[1..]);
    }
  }

  /** A level that differs from the given one. */
  function OtherLevel(level: string): (other: string)
    ensures other != level && NoWildcard(other) && IsLevel(other) && !StartsWith(other, '$')
  {
    if level == "a" then "b" else "a"
  }

  /** Some topic the filter matches. */
  function Instance(req: seq<string>): (topic: seq<string>)
    ensures |topic| <= |req|
  {
    if req == [] || req[0] == "#" then []
    else [if req[0] == "+" then "a" else req[0]] + Instance(req[1..])
  }

  lemma {:induction false} InstanceMatches(req: seq<string>)
    requires ValidLevels(req)
    ensures LevelsMatch(req, Instance(req))
    ensures PlainLevels(Instance(req))
    ensures (forall i | 0 <= i < |req| :: IsLevel(req[i])) ==> forall i | 0 <= i < |Instance(req)| :: IsLevel(Instance(req)[i])
  {
    if req != [] && req[0] != "#" {
      InstanceMatches(req[1..]);
      assert Instance(req)[1..] == Instance(req[1..]);
    }
  }

  /** A topic the request matches and the rule does not. `top` says that these are whole
      filters, so the topic needs at least one level. */
  function Witness(rule: seq<string>, req: seq<string>, top: bool): seq<string>
  {
    if rule == [] then (if req != [] && req[0] == "#" then ["a"] else Instance(req))
    else if req == [] then []
    else if req[0] == "#" then
      if !top then [] else if rule == ["+"] then ["a", "a"] else [OtherLevel(rule[0])]
    else if rule[0] == "+" then [if req[0] == "+" then "a" else req[0]] + Witness(rule[1..], req[1..], false)
    else if req[0] == "+" then [OtherLevel(rule[0])] + Instance(req[1..])
    else if rule[0] != req[0] then [req[0]] + Instance(req[1..])
    else [req[0]] + Witness(rule[1..], req[1..], false)
  }

  /** The one pair where a rule covers a request without subsuming it. */
  predicate Exceptional(rule: seq<string>, req: seq<string>) {
    rule == ["+", "#"] && req == ["#"]
  }

  ghost predicate Separates(topic: seq<string>, rule: seq<string>, req: seq<string>) {
    && LevelsMatch(req, topic) && !LevelsMatch(rule, topic) && PlainLevels(topic)
    && forall i | 0 <= i < |topic| :: IsLevel(topic[i])
  }

  lemma {:induction false} WitnessSeparates(rule: seq<string>, req: seq<string>, top: bool)
    requires ValidLevels(rule) && ValidLevels(req)
    requires forall i | 0 <= i < |req| :: IsLevel(req[i])
    requires !LevelsSubsume(rule, req)
    requires top ==> rule != [] && req != [] && !Exceptional(rule, req)
    ensures Separates(Witness(rule, req, top), rule, req)
    ensures top ==> |Witness(rule, req, top)| >= 1
    ensures top ==> StartsWith(Witness(rule, req, top)[0], '$') ==> req[0] == Witness(rule, req, top)[0]
  {
    var w := Witness(rule, req, top);
    if rule == [] {
      InstanceMatches(req);
      if req[0] != "#" { assert |Instance(req)| >= 1; }
    } else if req == [] {
    } else if req[0] == "#" {
      assert |rule| >= 2 ==> rule[1..][0] == rule[1];
      if top && rule != ["+"] { assert w[1..] == []; }
      if top && rule == ["+"] { assert w[1..] == ["a"]; }
    } else if rule[0] == "+" || rule[0] == req[0] {
      WitnessSeparates(rule[1..], req[1..], false);
      assert w[1..] == Witness(rule[1..], req[1..], false);
    } else {
      InstanceMatches(req[1..]);
      assert w[1..] == Instance(req[1..]);
    }
  }

  lemma FirstLevelDecidesPrefix(s: string, c: char)
    requires c != '/'
    ensures StartsWith(s, c) <==> StartsWith(Split(s)[0], c)
  {
  }

  lemma WildFirstIsWild(filter: string)
    requires ValidFilter(filter)
    ensures WildFirst(filter) <==> IsWild(Split(filter)[0])
  {
    FirstLevelDecidesPrefix(filter, '+');
    FirstLevelDecidesPrefix(filter, '#');
  }

  /** A topic as a string, from its levels. */
  lemma TopicFromLevels(levels: seq<string>)
    requires AreLevels(levels)
    requires PlainLevels(levels)
    ensures Split(Join(levels)) == levels && WildcardFree(Join(levels))
  {
    SplitJoin(levels);
    NoWildcardSplits(Join(levels));
  }

  /** The two pairs that only the empty topic tells apart: `/+/#` and `+/+/#` over `/#`. */
  predicate EmptyApart(rule: seq<string>, req: seq<string>) {
    (rule == ["", "+", "#"] || rule == ["+", "+", "#"]) && req == ["", "#"]
  }

  lemma OnlyEmptyIsEmpty(topic: string)
    ensures Split(topic) == [""] <==> topic == ""
  {
    if topic != "" && topic[0] != '/' { assert Split(topic)[0] == [topic[0]] + Split(topic[1..])[0]; }
  }

  /** A topic under `/` that the rule does not match. */
  function Second(rule: seq<string>): seq<string>
    requires rule != []
  {
    if (rule[0] != "+" && rule[0] != "") || |rule| == 1 then ["", "a"]
    else if rule[1] != "+" then ["", OtherLevel(rule[1])]
    else if |rule| == 2 then ["", "a", "a"]
    else ["", "a"]
  }

  lemma SecondSeparates(rule: seq<string>)
    requires ValidLevels(rule) && rule != [] && !LevelsSubsume(rule, ["", "#"]) && !EmptyApart(rule, ["", "#"])
    ensures Separates(Second(rule), rule, ["", "#"])
  {
    var w := Second(rule);
    var r1, w1 := rule[1..], w[1..];
    assert ["", "#"][1..] == ["#"];
    if |rule| >= 2 {
      var r2, w2 := r1[1..], w1[1..];
      assert r1[0] == rule[1] && w2 == (if |w| == 3 then ["a"] else []);
      assert r2 == ["#"] ==> rule == [rule[0], rule[1], "#"];
      assert (rule[0] == "+" || rule[0] == "") && rule[1] == "+" ==> !LevelsMatch(r2, w2);
    }
  }

  /** When the witness is the empty topic, the request is `/#` or empty. */
  lemma EmptyWitness(rule: seq<string>, req: seq<string>)
    requires ValidLevels(rule) && ValidLevels(req) && rule != [] && req != [] && !LevelsSubsume(rule, req)
    requires Witness(rule, req, true) == [""]
    ensures req == [""] || req == ["", "#"]
  {
    var rest, w := req[1..], Witness(rule, req, true);
    assert req == [req[0]] + rest && w[0] == "" && w[1..] == [];
    if req[0] != "#" && (rule[0] == "+" || rule[0] == req[0]) {
      assert w[1..] == Witness(rule[1..], rest, false);
    } else if req[0] != "#" {
      assert w[1..] == Instance(rest);
    }
    assert req[0] == "" && (rest == [] || rest[0] == "#");
    assert rest != [] ==> rest == ["#"];
  }

  /** What the procedure, and the `$` rule, grant. */
  predicate Grants(rule: string, req: string) {
    Subsumes(rule, req) && !(WildFirst(rule) && StartsWith(req, '$'))
  }

  /** A topic the request matches and the rule does not, and the empty one only where it must be. */
  lemma Uncovered(rule: string, req: string) returns (topic: string)
    requires ValidFilter(rule) && ValidFilter(req) && !Grants(rule, req) && !Exceptional(Split(rule), Split(req))
    ensures WildcardFree(topic) && Matches(req, topic) && !Matches(rule, topic)
    ensures req != "" && !EmptyApart(Split(rule), Split(req)) ==> topic != ""
  {
    var r, q := Split(rule), Split(req);
    var levels;
    SplitGivesLevels(req);
    WildFirstIsWild(rule);
    WildFirstIsWild(req);
    FirstLevelDecidesPrefix(req, '$');
    OnlyEmptyIsEmpty(req);
    if Subsumes(rule, req) {
      InstanceMatches(q);
      levels := Instance(q);
      assert levels[0] == q[0];
    } else {
      WitnessSeparates(r, q, true);
      levels := Witness(r, q, true);
      if levels == [""] {
        EmptyWitness(r, q);
        if q == ["", "#"] && !EmptyApart(r, q) {
          SecondSeparates(r);
          levels := Second(r);
        }
      }
    }
    TopicFromLevels(levels);
    topic := Join(levels);
    FirstLevelDecidesPrefix(topic, '$');
    OnlyEmptyIsEmpty(topic);
  }

  /** `Subsumes` decides coverage of valid filters, up to two known deviations: a rule that
      starts with a wildcard never covers a `$` request, and `+/#` covers `#` unnoticed. */
  lemma SubsumesDecidesCovers(rule: string, req: string)
    requires ValidFilter(rule) && ValidFilter(req)
    ensures Covers(rule, req) <==> Grants(rule, req) || Exceptional(Split(rule), Split(req))
  {
    var r, q := Split(rule), Split(req);
    WildFirstIsWild(rule);
    WildFirstIsWild(req);
    FirstLevelDecidesPrefix(req, '$');
    if Exceptional(r, q) {
      forall topic | WildcardFree(topic) && Matches(req, topic) ensures Matches(rule, topic) {
        assert LevelsMatch(r[1..], Split(topic)[1..]);
      }
    } else if !Grants(rule, req) {
      var topic := Uncovered(rule, req);
    } else {
      forall topic | WildcardFree(topic) && Matches(req, topic) ensures Matches(rule, topic) {
        SubsumesSound(r, q, Split(topic));
        FirstLevelDecidesPrefix(topic, '$');
      }
    }
  }

  /** Every topic name the request matches is matched by the rule, the empty one aside, which cannot be
      published. */
  ghost predicate CoversNonEmpty(rule: string, req: string) {
    forall topic | topic != "" && WildcardFree(topic) && Matches(req, topic) :: Matches(rule, topic)
  }

  lemma EmptyApartCovers(rule: string, req: string, topic: string)
    requires EmptyApart(Split(rule), Split(req)) && topic != "" && Matches(req, topic)
    ensures Matches(rule, topic)
  {
    var levels := Split(topic);
    OnlyEmptyIsEmpty(topic);
    FirstLevelDecidesPrefix(topic, '$');
    assert levels[0] == "" && (|levels| == 1 ==> levels == [""]);
    assert LevelsMatch(Split(rule)[1..][1..], levels[1..][1..]);
    assert LevelsMatch(Split(rule)[1..], levels[1..]);
  }

  /** Over the topics that can be published, three pairs escape the procedure instead of one, and the empty
      filter is covered by anything. */
  lemma SubsumesDecidesCoversNonEmpty(rule: string, req: string)
    requires ValidFilter(rule) && ValidFilter(req)
    ensures CoversNonEmpty(rule, req) <==>
            req == "" || Grants(rule, req) || Exceptional(Split(rule), Split(req)) || EmptyApart(Split(rule), Split(req))
  {
    if Grants(rule, req) || Exceptional(Split(rule), Split(req)) {
      SubsumesDecidesCovers(rule, req);
    } else if req == "" {
      forall topic | Matches(req, topic) ensures topic == "" { EmptyMatches(topic); }
    } else if EmptyApart(Split(rule), Split(req)) {
      forall topic | topic != "" && WildcardFree(topic) && Matches(req, topic) ensures Matches(rule, topic) {
        EmptyApartCovers(rule, req, topic);
      }
    } else {
      var topic := Uncovered(rule, req);
    }
  }

  /** The empty filter matches the empty topic only. */
  lemma EmptyMatches(topic: string)
    requires Matches("", topic)
    ensures topic == ""
  {
    var levels := Split(topic);
    assert Split("") == [""] && [""][1..] == [];
    assert LevelsMatch([], levels[1..]);
    assert levels == [levels[0]] + levels[1..];
    OnlyEmptyIsEmpty(topic);
  }
}
