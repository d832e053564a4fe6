/** Session keys (src/Pi.Channels/SessionKeyBuilder.cs): four parts joined by colons behind the word
    `agent`, and the parser that takes them apart again. */
module SessionKey {
  import opened Wrappers

  datatype Components = Components(agentName: string, channelType: string, conversationType: string,
                                   conversationId: string)

  datatype Error = EmptyPart | EmptyKey | BadFormat

  /** `char.IsWhiteSpace` on the characters of the Basic Multilingual Plane. */
  predicate IsWhiteSpace(c: char) {
    var code := c as int;
    || 0x09 <= code <= 0x0D || 0x2000 <= code <= 0x200A
    || code in {0x20, 0x85, 0xA0, 0x1680, 0x2028, 0x2029, 0x202F, 0x205F, 0x3000}
  }

  predicate IsBlank(s: string) {
    forall c <- s :: IsWhiteSpace(c)
  }

  function Format(k: Components): string {
    "agent:" + k.agentName + ":" + k.channelType + ":" + k.conversationType + ":" + k.conversationId
  }

  predicate NoBlankPart(k: Components) {
    !IsBlank(k.agentName) && !IsBlank(k.channelType) && !IsBlank(k.conversationType) && !IsBlank(k.conversationId)
  }

  /** Only the last part may hold a colon. */
  predicate ColonFree(k: Components) {
    ':' !in k.agentName && ':' !in k.channelType && ':' !in k.conversationType
  }

  function Build(k: Components): Result<string, Error> {
    if IsBlank(k.agentName) || IsBlank(k.channelType) || IsBlank(k.conversationType) || IsBlank(k.conversationId)
    then Err(EmptyPart)
    else Ok(Format(k))
  }

  function Split(s: string): (parts: seq<string>)
    ensures |parts| > 0
  {
    if s == "" then [""]
    else
      var rest := Split(s[1..]);
      if s[0] == ':' then [""] + rest else [[s[0]] + rest[0]] + rest[1..]
  }

  function Join(parts: seq<string>): string {
    if |parts| == 0 then "" else if |parts| == 1 then parts[0] else parts[0] + ":" + Join(parts[1..])
  }

  function Parse(key: string): Result<Components, Error> {
    if IsBlank(key) then Err(EmptyKey)
    else
      var parts := Split(key);
      if |parts| < 5 || parts[0] != "agent" then Err(BadFormat)
      else Ok(Components(parts[1], parts[2], parts[3], Join(parts[4..])))
  }

  lemma {:induction false} JoinSplit(s: string)
    ensures Join(Split(s)) == s
    ensures forall p <- Split(s) :: ':' !in p
  {
    if s != "" {
      JoinSplit(s[1..]);
      var rest := Split(s[1..]);
      if s[0] == ':' {
        assert Split(s)[1..] == rest;
      } else {
        assert Split(s)[1..] == rest[1..];
      }
    }
  }

  lemma {:induction false} SplitJoin(parts: seq<string>)
    requires parts != [] && forall p <- parts :: ':' !in p
    ensures Split(Join(parts)) == parts
  {
    if |parts| == 1 {
      SplitPlain(parts[0]);
    } else {
      SplitJoin(parts[1..]);
      SplitFirst(parts[0], Join(parts[1..]));
      assert parts[0] + ":" + Join(parts[1..]) == parts[0] + (":" + Join(parts[1..]));
    }
  }

  lemma {:induction false} SplitPlain(p: string)
    requires ':' !in p
    ensures Split(p) == [p]
  {
    if p != "" {
      SplitPlain(p[1..]);
      assert [p[0]] + p[1..] == p;
    }
  }

  lemma {:induction false} SplitFirst(p: string, rest: string)
    requires ':' !in p
    ensures Split(p + (":" + rest)) == [p] + Split(rest)
  {
    if p == "" {
      assert p + (":" + rest) == ":" + rest;
      assert (":" + rest)[1..] == rest;
    } else {
      SplitFirst(p[1..], rest);
      assert (p + (":" + rest))[1..] == p[1..] + (":" + rest);
      assert ([p[1..]] + Split(rest))[1..] == Split(rest);
      assert [p[0]] + p[1..] == p;
    }
  }

  lemma JoinParts(parts: seq<string>)
    requires |parts| >= 5 && parts[0] == "agent"
    ensures Join(parts) == Format(Components(parts[1], parts[2], parts[3], Join(parts[4..])))
  {
    assert Join(parts[3..]) == parts[3] + ":" + Join(parts[4..]);
    assert Join(parts[2..]) == parts[2] + ":" + Join(parts[3..]);
    assert Join(parts[1..]) == parts[1] + ":" + Join(parts[2..]);
  }

  /** What the parser accepts, and what it reads off it: exactly the keys that the four parts format
      to, with colons nowhere but in the last part. */
  lemma ParseMeaning(key: string, k: Components)
    ensures Parse(key) == Ok(k) <==> key == Format(k) && ColonFree(k)
  {
    if Parse(key) == Ok(k) {
      JoinSplit(key);
      JoinParts(Split(key));
    }
    if key == Format(k) && ColonFree(k) {
      var parts := ["agent", k.agentName, k.channelType, k.conversationType] + Split(k.conversationId);
      JoinSplit(k.conversationId);
      assert parts[4..] == Split(k.conversationId);
      JoinParts(parts);
      SplitJoin(parts);
      assert key[0] == 'a' && !IsWhiteSpace(key[0]);
    }
  }

  /** A built key parses back to its parts exactly when the first three are free of colons. */
  lemma ParseBuild(k: Components)
    requires NoBlankPart(k)
    ensures Build(k).Ok?
    ensures Parse(Build(k).value) == Ok(k) <==> ColonFree(k)
  {
    ParseMeaning(Build(k).value, k);
  }

  /** A parsed key is rebuilt exactly when none of its parts is blank; otherwise the builder refuses. */
  lemma BuildParse(key: string)
    requires Parse(key).Ok?
    ensures Build(Parse(key).value) == if NoBlankPart(Parse(key).value) then Ok(key) else Err(EmptyPart)
  {
    ParseMeaning(key, Parse(key).value);
  }

  /** Conversations with colon-free names never share a key, however their identifiers look. */
  lemma KeysAreDistinct(k: Components, l: Components)
    requires ColonFree(k) && ColonFree(l) && k != l
    ensures Build(k).Ok? && Build(l).Ok? ==> Build(k) != Build(l)
  {
    if Build(k).Ok? && Build(l).Ok? {
      ParseMeaning(Build(k).value, k);
      ParseMeaning(Build(l).value, l);
    }
  }

  /** With a colon in a name two different conversations do share a key. */
  lemma ColonsCollide()
    ensures Build(Components("a:b", "c", "d", "e")) == Build(Components("a", "b:c", "d", "e")) == Ok("agent:a:b:c:d:e")
  {
    var k, l := Components("a:b", "c", "d", "e"), Components("a", "b:c", "d", "e");
    assert !IsWhiteSpace("a:b"[0]) && !IsWhiteSpace("c"[0]) && !IsWhiteSpace("d"[0]) && !IsWhiteSpace("e"[0]);
    assert !IsWhiteSpace("a"[0]) && !IsWhiteSpace("b:c"[0]);
    assert Format(k) == "agent:a:b:c:d:e";
    assert Format(l) == "agent:a:b:c:d:e";
  }

  /** A part is refused if it holds nothing but blanks; parts with a printable character of ASCII each are
      formatted. */
  lemma BuildRefuses(k: Components)
    ensures (exists p <- [k.agentName, k.channelType, k.conversationType, k.conversationId] ::
               forall c <- p :: c in {' ', '\t', '\n', '\r'}) ==> Build(k) == Err(EmptyPart)
    ensures (forall p <- [k.agentName, k.channelType, k.conversationType, k.conversationId] ::
               exists c <- p :: '!' <= c <= '~') ==>
              Build(k) == Ok("agent:" + k.agentName + ":" + k.channelType + ":" + k.conversationType + ":"
                             + k.conversationId)
  {
    var parts := [k.agentName, k.channelType, k.conversationType, k.conversationId];
    assert parts[0] in parts && parts[1] in parts && parts[2] in parts && parts[3] in parts;
    forall p: string
      ensures (forall c <- p :: c in {' ', '\t', '\n', '\r'}) ==> IsBlank(p)
      ensures (exists c <- p :: '!' <= c <= '~') ==> !IsBlank(p)
    {
    }
  }

  /** What is not parsed is blank or malformed. */
  lemma ParseRefuses(key: string)
    ensures (forall c <- key :: c in {' ', '\t', '\n', '\r'}) ==> Parse(key) == Err(EmptyKey)
    ensures (exists c <- key :: '!' <= c <= '~') && (forall k :: ColonFree(k) ==> key != Format(k)) ==>
              Parse(key) == Err(BadFormat)
  {
    if Parse(key).Ok? {
      ParseMeaning(key, Parse(key).value);
    }
  }
}
