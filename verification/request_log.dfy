/** The line the request logger writes for every inbound request. The clock
    reading is a parameter: `timestamp` stands for the ISO-8601 text of the
    current time. */
module RequestLog {
  import opened JsValues

  const NoOrigin: string := "none"
  const OriginTag: string := " Origin:"

  /** `req.headers.origin || 'none'`: the declared origin, or the placeholder
      when it is absent or empty. */
  function OriginLabel(origin: Option<string>): (tag: string)
    ensures tag != ""
    ensures Truthy(origin) ==> tag == origin.value
    ensures tag == NoOrigin <==> !Truthy(origin) || origin.value == NoOrigin
  {
    OrElse(origin, NoOrigin)
  }

  /** `[<timestamp>] <verb> <url> Origin:<label>`. The fields are laid out in
      that order with a fixed amount of punctuation between them: the
      timestamp sits right after the opening bracket, the verb after "] ",
      the url after one space, and the origin label closes the line, right
      after the `Origin:` tag. */
  function FormatLogLine(timestamp: string, verb: string, url: string, origin: Option<string>): (line: string)
    ensures |line| == |timestamp| + |verb| + |url| + |OriginLabel(origin)| + 12
    ensures line[0] == '[' && line[1..|timestamp| + 1] == timestamp
    ensures line[|timestamp| + 1..|timestamp| + 3] == "] "
    ensures line[|timestamp| + 3..|timestamp| + 3 + |verb|] == verb
    ensures line[|timestamp| + 3 + |verb|] == ' '
    ensures line[|timestamp| + 4 + |verb|..|timestamp| + 4 + |verb| + |url|] == url
    ensures line[|line| - |OriginLabel(origin)|..] == OriginLabel(origin)
    ensures line[|line| - |OriginLabel(origin)| - |OriginTag|..|line| - |OriginLabel(origin)|] == OriginTag
  {
    var shown := OriginLabel(origin);
    var head := "[" + timestamp + "] " + verb + " " + url;
    var line := head + OriginTag + shown;
    assert line[..|head|] == head;
    assert line[|head|..|head| + |OriginTag|] == OriginTag;
    assert line[|head| + |OriginTag|..] == shown;
    assert head[1..|timestamp| + 1] == timestamp;
    assert head[|timestamp| + 1..|timestamp| + 3] == "] ";
    assert head[|timestamp| + 3..|timestamp| + 3 + |verb|] == verb;
    assert head[|timestamp| + 4 + |verb|..] == url;
    line
  }

  /** For fixed timestamp, verb and url, two requests produce the same line
      exactly when their origin labels agree: the line records the origin and
      nothing else about it. */
  lemma FormatLogLineOriginInjective(timestamp: string, verb: string, url: string, o1: Option<string>, o2: Option<string>)
    ensures FormatLogLine(timestamp, verb, url, o1) == FormatLogLine(timestamp, verb, url, o2)
            <==> OriginLabel(o1) == OriginLabel(o2)
  {
    var l1 := FormatLogLine(timestamp, verb, url, o1);
    var l2 := FormatLogLine(timestamp, verb, url, o2);
    if l1 == l2 {
      var n := |l1|;
      assert |OriginLabel(o1)| == |OriginLabel(o2)|;
      assert OriginLabel(o1) == l1[n - |OriginLabel(o1)|..] == l2[n - |OriginLabel(o2)|..] == OriginLabel(o2);
    }
  }

  /** The line for an absent origin and for a real one, written out. */
  lemma LogLineExamples()
    ensures FormatLogLine("t", "GET", "/m", None) == "[t] GET /m Origin:none"
    ensures FormatLogLine("t", "GET", "/m", Some("http://a")) == "[t] GET /m Origin:http://a"
  {
    assert "[" + "t" == "[t";
    assert "[t" + "] " == "[t] ";
    assert "[t] " + "GET" == "[t] GET";
    assert "[t] GET" + " " == "[t] GET ";
    assert "[t] GET " + "/m" == "[t] GET /m";
    assert "[t] GET /m" + " Origin:" == "[t] GET /m Origin:";
    assert OriginLabel(None) == "none";
    assert "[t] GET /m Origin:" + "none" == "[t] GET /m Origin:none";
    assert OriginLabel(Some("http://a")) == "http://a";
    assert "[t] GET /m Origin:" + "http://a" == "[t] GET /m Origin:http://a";
  }

  /** An absent origin, an empty one and the literal origin "none" are logged
      identically. */
  lemma NoOriginLoggedAsNone(timestamp: string, verb: string, url: string)
    ensures FormatLogLine(timestamp, verb, url, None) == FormatLogLine(timestamp, verb, url, Some(""))
    ensures FormatLogLine(timestamp, verb, url, None) == FormatLogLine(timestamp, verb, url, Some(NoOrigin))
  {
    FormatLogLineOriginInjective(timestamp, verb, url, None, Some(""));
    FormatLogLineOriginInjective(timestamp, verb, url, None, Some(NoOrigin));
  }
}
