/** Discovery keys (discovery.rs, topic_utilities.rs): a topic's description as a key of '/'-separated
    chunks, and back. */
module Discovery {
  import opened Wrappers
  import opened Topics

  // ------------------------------------------------------------------ chunks

  function Split(s: string): (r: seq<string>)
    ensures |r| > 0
    ensures forall i | 0 <= i < |r| :: '/' !in r[i]
  {
    if s == "" then [""]
    else
      var rest := Split(s[1..]);
      if s[0] == '/' then [""] + rest else [[s[0]] + rest[0]] + rest[1..]
  }

  function Join(chunks: seq<string>): string
    requires |chunks| > 0
  {
    if |chunks| == 1 then chunks[0] else chunks[0] + "/" + Join(chunks[1..])
  }

  lemma {:induction false} JoinSplit(s: string)
    ensures Join(Split(s)) == s
  {
    if s != "" {
      JoinSplit(s[1..]);
      var rest := Split(s[1..]);
      if s[0] == '/' {
        assert Split(s)[1..] == rest;
      } else if |rest| > 1 {
        assert Split(s)[1..] == rest[1..];
      }
    }
  }

  lemma {:induction false} SplitChunk(chunk: string)
    requires '/' !in chunk
    ensures Split(chunk) == [chunk]
  {
    if chunk != "" {
      SplitChunk(chunk[1..]);
      assert chunk[0] in chunk && [chunk[0]] + chunk[1..] == chunk;
    }
  }

  lemma {:induction false} SplitFirst(chunk: string, s: string)
    requires '/' !in chunk
    ensures Split(chunk + "/" + s) == [chunk] + Split(s)
  {
    var whole := chunk + "/" + s;
    if chunk == "" {
      assert whole[1..] == s;
    } else {
      SplitFirst(chunk[1..], s);
      assert chunk[0] in chunk && [chunk[0]] + chunk[1..] == chunk;
      assert whole[1..] == chunk[1..] + "/" + s;
    }
  }

  lemma {:induction false} SplitJoin(chunks: seq<string>)
    requires |chunks| > 0 && forall i | 0 <= i < |chunks| :: '/' !in chunks[i]
    ensures Split(Join(chunks)) == chunks
  {
    if |chunks| == 1 {
      SplitChunk(chunks[0]);
    } else {
      SplitJoin(chunks[1..]);
      SplitFirst(chunks[0], Join(chunks[1..]));
    }
  }

  // ------------------------------------------------------------------ hexadecimal

  /** Section 8 of RFC 4648, lower-case when written. */
  function HexDigit(n: Byte): (c: char)
    requires n < 16
    ensures HexValue(c) == Some(n) && c != '/' && !('A' <= c <= 'F')
  {
    if n < 10 then '0' + n as char else 'a' + (n - 10) as char
  }

  /** Either case when read. */
  function HexValue(c: char): (r: Option<Byte>)
    ensures r.Some? ==> r.value < 16
  {
    if '0' <= c <= '9' then Some((c - '0') as int)
    else if 'a' <= c <= 'f' then Some((c - 'a') as int + 10)
    else if 'A' <= c <= 'F' then Some((c - 'A') as int + 10)
    else None
  }

  function HexEncode(bytes: seq<Byte>): (s: string)
    ensures |s| == 2 * |bytes| && '/' !in s
  {
    if bytes == [] then "" else [HexDigit(bytes[0] / 16), HexDigit(bytes[0] % 16)] + HexEncode(bytes[1..])
  }

  function HexDecode(s: string): Option<seq<Byte>> {
    if s == "" then Some([])
    else if |s| == 1 || HexValue(s[0]) == None || HexValue(s[1]) == None then None
    else
      var rest := HexDecode(s[2..]);
      if rest == None then None else Some([16 * HexValue(s[0]).value + HexValue(s[1]).value] + rest.value)
  }

  lemma {:induction false} HexRoundTrip(bytes: seq<Byte>)
    ensures HexDecode(HexEncode(bytes)) == Some(bytes)
  {
    if bytes != [] {
      HexRoundTrip(bytes[1..]);
      assert HexEncode(bytes)[2..] == HexEncode(bytes[1..]);
      assert [bytes[0]] + bytes[1..] == bytes;
    }
  }

  /** Each byte is written as two digits, the higher one first. */
  lemma {:induction false} HexWritten(bytes: seq<Byte>, i: nat)
    requires i < |bytes|
    ensures HexEncode(bytes)[2 * i] == "0123456789abcdef"[bytes[i] / 16]
    ensures HexEncode(bytes)[2 * i + 1] == "0123456789abcdef"[bytes[i] % 16]
  {
    DigitWritten(bytes[0] / 16);
    DigitWritten(bytes[0] % 16);
    hide HexDigit;
    if i > 0 {
      HexWritten(bytes[1..], i - 1);
      var rest := HexEncode(bytes[1..]);
      assert HexEncode(bytes)[2 * i] == rest[2 * (i - 1)] && HexEncode(bytes)[2 * i + 1] == rest[2 * (i - 1) + 1];
    }
  }

  lemma DigitWritten(n: Byte)
    requires n < 16
    ensures HexDigit(n) == "0123456789abcdef"[n]
  {
  }

  predicate IsDigit(c: char) { c in "0123456789abcdefABCDEF" }

  /** A text is read exactly if it is an even number of digits, of either case. */
  lemma {:induction false} HexRead(s: string)
    ensures HexDecode(s).Some? <==> |s| % 2 == 0 && forall i | 0 <= i < |s| :: IsDigit(s[i])
  {
    hide IsDigit;
    if |s| >= 2 {
      HexRead(s[2..]);
      DigitRead(s[0]);
      DigitRead(s[1]);
      hide HexValue;
      DigitsFrom(s);
    }
  }

  lemma DigitsFrom(s: string)
    requires |s| >= 2
    ensures (forall i | 0 <= i < |s| :: IsDigit(s[i])) <==>
      IsDigit(s[0]) && IsDigit(s[1]) && forall i | 0 <= i < |s[2..]| :: IsDigit(s[2..][i])
  {
    hide IsDigit;
    assert forall i | 2 <= i < |s| :: s[i] == s[2..][i - 2];
    assert forall i | 0 <= i < |s[2..]| :: s[2..][i] == s[i + 2];
  }

  lemma DigitRead(c: char)
    ensures HexValue(c).Some? <==> IsDigit(c)
  {
    assert forall i | 0 <= i < 22 :: HexValue("0123456789abcdefABCDEF"[i]).Some?;
    if '0' <= c <= '9' {
      assert c == "0123456789abcdefABCDEF"[(c - '0') as int];
    } else if 'a' <= c <= 'f' {
      assert c == "0123456789abcdefABCDEF"[10 + (c - 'a') as int];
    } else if 'A' <= c <= 'F' {
      assert c == "0123456789abcdefABCDEF"[16 + (c - 'A') as int];
    }
  }

  predicate LowerCase(s: string) {
    forall i | 0 <= i < |s| :: !('A' <= s[i] <= 'F')
  }

  lemma HexDigitOfValue(c: char)
    requires HexValue(c).Some?
    ensures HexDigit(HexValue(c).value) == c <==> !('A' <= c <= 'F')
  {
  }

  lemma LowerCaseFrom(s: string)
    requires |s| >= 2
    ensures LowerCase(s) <==> !('A' <= s[0] <= 'F') && !('A' <= s[1] <= 'F') && LowerCase(s[2..])
  {
    assert forall i | 2 <= i < |s| :: s[i] == s[2..][i - 2];
  }

  lemma HexDigits(s: string)
    requires |s| >= 2 && HexDecode(s).Some?
    ensures var bytes := HexDecode(s).value;
      bytes != [] && HexDecode(s[2..]) == Some(bytes[1..]) &&
      HexValue(s[0]) == Some(bytes[0] / 16) && HexValue(s[1]) == Some(bytes[0] % 16)
  {
  }

  /** Reading and writing again keeps a text exactly if it has no upper-case digits. */
  lemma {:induction false} HexRewrite(s: string)
    requires HexDecode(s).Some?
    ensures HexEncode(HexDecode(s).value) == s <==> LowerCase(s)
  {
    if s != "" {
      HexDigits(s);
      HexRewrite(s[2..]);
      hide HexDecode, HexValue, HexDigit, LowerCase;
      LowerCaseFrom(s);
      HexDigitOfValue(s[0]);
      HexDigitOfValue(s[1]);
      assert s == [s[0], s[1]] + s[2..];
    }
  }

  // ------------------------------------------------------------------ names

  function TrimStart(s: string): (r: string)
    ensures |r| <= |s|
    ensures r == "" || r[0] != '/'
    ensures s == "" || s[0] != '/' ==> r == s
  {
    if s != "" && s[0] == '/' then TrimStart(s[1..]) else s
  }

  function TrimEnd(s: string): (r: string)
    ensures |r| <= |s| && r == s[..|r|]
    ensures r == "" || r[|r| - 1] != '/'
    ensures s == "" || s[|s| - 1] != '/' ==> r == s
  {
    if s != "" && s[|s| - 1] == '/' then TrimEnd(s[..|s| - 1]) else s
  }

  /** `make_topic_key`: the name without its leading and trailing slashes. */
  function TopicKey(name: string): (r: string)
    ensures r == "" || (r[0] != '/' && r[|r| - 1] != '/')
  {
    TrimEnd(TrimStart(name))
  }

  /** What `make_topic` makes of a topic key. */
  function TopicName(key: string): string { "/" + key }

  /** A name is read back as this. */
  function Normal(name: string): string { TopicName(TopicKey(name)) }

  lemma TrimmedOnce(key: string)
    requires key == "" || (key[0] != '/' && key[|key| - 1] != '/')
    ensures TopicKey(TopicName(key)) == key
  {
    assert TopicName(key)[1..] == key;
  }

  lemma NormalIsIdempotent(name: string)
    ensures TopicKey(Normal(name)) == TopicKey(name)
    ensures Normal(Normal(name)) == Normal(name)
  {
    TrimmedOnce(TopicKey(name));
  }

  /** A name is normal exactly if it has one leading slash and no trailing one (or is the slash alone). */
  lemma NormalNames(name: string)
    ensures Normal(name) == name <==>
      && name != "" && name[0] == '/'
      && (|name| > 1 ==> name[1] != '/' && name[|name| - 1] != '/')
  {
    if name != "" && name[0] == '/' && (|name| > 1 ==> name[1] != '/' && name[|name| - 1] != '/') {
      TrimmedOnce(name[1..]);
      assert name == TopicName(name[1..]);
    }
  }

  // ------------------------------------------------------------------ keys

  const ROOT := "ros1_discovery_info"

  function Class(t: BridgeType): string {
    match t
    case Publisher => "pub"
    case Subscriber => "sub"
    case Service => "srv"
    case Client => "cl"
  }

  predicate Chunk(s: string) { s != "" && '/' !in s }

  /** What the format accepts for a field that may span chunks: nothing, or non-empty chunks. */
  predicate Chunks(s: string) {
    s == "" || forall i | 0 <= i < |Split(s)| :: Split(s)[i] != ""
  }

  function Body(s: string): seq<string> {
    if s == "" then [] else Split(s)
  }

  /** The key under which a topic is declared, or nothing when a field does not fit the format. */
  function DiscoveryKey(ns: string, bridgeNs: string, t: BridgeType, d: TopicDescriptor): Option<string> {
    var datatype_, body := HexEncode(d.datatype_), TopicKey(d.name);
    if Chunk(ns) && Chunk(datatype_) && Chunk(d.md5) && Chunk(bridgeNs) && Chunks(body)
    then Some(Join([ROOT, ns, Class(t), datatype_, d.md5, bridgeNs] + Body(body)))
    else None
  }

  datatype Error = NotADiscoveryKey | BadHex | NotText | NoTopic | UnexpectedClass

  datatype Decoded = Decoded(t: BridgeType, d: TopicDescriptor) | Failed(error: Error)

  function ClassOf(class_: string): Option<BridgeType> {
    if class_ == "pub" then Some(Publisher)
    else if class_ == "sub" then Some(Subscriber)
    else if class_ == "srv" then Some(Service)
    else if class_ == "cl" then Some(Client)
    else None
  }

  /** What the receiver of a key makes of it; `text` tells which bytes are UTF-8. */
  function Decode(text: seq<Byte> -> bool, key: string): Decoded {
    var chunks := Split(key);
    if |chunks| < 6 || chunks[0] != ROOT then Failed(NotADiscoveryKey)
    else
      var bytes := HexDecode(chunks[3]);
      if bytes == None then Failed(BadHex)
      else if !text(bytes.value) then Failed(NotText)
      else if |chunks| == 6 then Failed(NoTopic)
      else
        var class_ := ClassOf(chunks[2]);
        if class_ == None then Failed(UnexpectedClass)
        else Decoded(class_.value, TopicDescriptor(TopicName(Join(chunks[6..])), bytes.value, chunks[4]))
  }

  /** The chunks of a declared key are its fields. */
  lemma KeyChunks(ns: string, bridgeNs: string, t: BridgeType, d: TopicDescriptor)
    requires DiscoveryKey(ns, bridgeNs, t, d).Some?
    ensures Split(DiscoveryKey(ns, bridgeNs, t, d).value) ==
      [ROOT, ns, Class(t), HexEncode(d.datatype_), d.md5, bridgeNs] + Body(TopicKey(d.name))
  {
    hide Split, Join, HexEncode, TopicKey;
    SplitJoin([ROOT, ns, Class(t), HexEncode(d.datatype_), d.md5, bridgeNs] + Body(TopicKey(d.name)));
  }

  /** Its first chunk, and the tag of its class, for each kind. */
  lemma ClassTags(ns: string, bridgeNs: string, t: BridgeType, d: TopicDescriptor)
    requires DiscoveryKey(ns, bridgeNs, t, d).Some?
    ensures var c := Split(DiscoveryKey(ns, bridgeNs, t, d).value);
      && |c| >= 6 && c[0] == "ros1_discovery_info"
      && (t == Publisher ==> c[2] == "pub") && (t == Subscriber ==> c[2] == "sub")
      && (t == Service ==> c[2] == "srv") && (t == Client ==> c[2] == "cl")
  {
    KeyChunks(ns, bridgeNs, t, d);
  }

  /** The class that a tag is read as. */
  predicate Tagged(tag: string, t: BridgeType) {
    || (tag == "pub" && t == Publisher) || (tag == "sub" && t == Subscriber)
    || (tag == "srv" && t == Service) || (tag == "cl" && t == Client)
  }

  /** Which keys are decoded, and to what. */
  lemma DecodedMeans(text: seq<Byte> -> bool, key: string, t: BridgeType, d: TopicDescriptor)
    ensures Decode(text, key) == Decoded(t, d) <==>
      var c := Split(key);
      && |c| > 6 && c[0] == "ros1_discovery_info" && Tagged(c[2], t)
      && HexDecode(c[3]) == Some(d.datatype_) && text(d.datatype_)
      && d.md5 == c[4] && d.name == "/" + Join(c[6..])
  {
    hide Split, Join, HexDecode;
  }

  /** Why a key is not decoded: the first thing that is wrong with it. */
  lemma FailureMeans(text: seq<Byte> -> bool, key: string, error: Error)
    ensures Decode(text, key) == Failed(error) <==>
      var c := Split(key);
      var discovery := |c| >= 6 && c[0] == "ros1_discovery_info";
      var readable := discovery && HexDecode(c[3]).Some?;
      var valid := readable && text(HexDecode(c[3]).value);
      match error
      case NotADiscoveryKey => !discovery
      case BadHex => discovery && !readable
      case NotText => readable && !valid
      case NoTopic => valid && |c| == 6
      case UnexpectedClass => valid && |c| > 6 && c[2] != "pub" && c[2] != "sub" && c[2] != "srv" && c[2] != "cl"
  {
    hide Split, Join, HexDecode;
  }

  // ------------------------------------------------------------------ who receives a key

  /** A chunk of a key and a chunk of a subscription's expression, either of which may be the wild card. */
  predicate Meets(a: string, b: string) { a == b || a == "*" || b == "*" }

  /** The expression that a receiver subscribes to: its namespaces, any class, data type and checksum, and
      at least one chunk of topic. */
  predicate Delivered(ns: string, bridgeNs: string, key: string) {
    var chunks := Split(key);
    && |chunks| > 6 && (forall i | 0 <= i < |chunks| :: chunks[i] != "")
    && chunks[0] == ROOT && Meets(chunks[1], ns) && Meets(chunks[5], bridgeNs)
  }

  /** A declared key reaches a receiver exactly if the namespaces meet and the name is more than slashes. */
  lemma DeliveredIff(ns: string, bridgeNs: string, t: BridgeType, d: TopicDescriptor, ns': string, bridgeNs': string)
    requires DiscoveryKey(ns, bridgeNs, t, d).Some?
    ensures Delivered(ns', bridgeNs', DiscoveryKey(ns, bridgeNs, t, d).value) <==>
      && (ns == ns' || ns == "*" || ns' == "*") && (bridgeNs == bridgeNs' || bridgeNs == "*" || bridgeNs' == "*")
      && TopicKey(d.name) != ""
  {
    KeyChunks(ns, bridgeNs, t, d);
    var chunks, body := Split(DiscoveryKey(ns, bridgeNs, t, d).value), TopicKey(d.name);
    var head := [ROOT, ns, Class(t), HexEncode(d.datatype_), d.md5, bridgeNs];
    assert forall i | 0 <= i < |head| :: head[i] != "";
    hide Split, TopicKey, HexEncode, Join, Class, DiscoveryKey;
    assert chunks == head + Body(body) && chunks[0] == ROOT && chunks[1] == ns && chunks[5] == bridgeNs;
    if body != "" {
      forall i | 0 <= i < |chunks| ensures chunks[i] != "" {
        assert chunks[i] == if i < 6 then head[i] else Split(body)[i - 6];
      }
    }
  }

  // ------------------------------------------------------------------ round trips

  lemma ClassRoundTrip(t: BridgeType)
    ensures ClassOf(Class(t)) == Some(t)
  {
  }

  /** A declared key is decoded to its class and descriptor, the name in normal form; only for a name that
      is nothing but slashes there is no topic to decode. */
  lemma RoundTrip(text: seq<Byte> -> bool, ns: string, bridgeNs: string, t: BridgeType, d: TopicDescriptor)
    requires DiscoveryKey(ns, bridgeNs, t, d).Some? && text(d.datatype_)
    ensures Decode(text, DiscoveryKey(ns, bridgeNs, t, d).value) ==
      if TopicKey(d.name) == "" then Failed(NoTopic) else Decoded(t, d.(name := Normal(d.name)))
  {
    KeyChunks(ns, bridgeNs, t, d);
    HexRoundTrip(d.datatype_);
    var head, body := [ROOT, ns, Class(t), HexEncode(d.datatype_), d.md5, bridgeNs], Body(TopicKey(d.name));
    assert (head + body)[6..] == body;
    JoinSplit(TopicKey(d.name));
  }

  /** Whatever declared key reaches a receiver can be decoded there. */
  lemma DeliveredIsDecoded(text: seq<Byte> -> bool, ns: string, bridgeNs: string, t: BridgeType, d: TopicDescriptor,
                           ns': string, bridgeNs': string)
    requires DiscoveryKey(ns, bridgeNs, t, d).Some? && text(d.datatype_)
    requires Delivered(ns', bridgeNs', DiscoveryKey(ns, bridgeNs, t, d).value)
    ensures Decode(text, DiscoveryKey(ns, bridgeNs, t, d).value) == Decoded(t, d.(name := Normal(d.name)))
  {
    DeliveredIff(ns, bridgeNs, t, d, ns', bridgeNs');
    RoundTrip(text, ns, bridgeNs, t, d);
  }

  /** The round trip is exact for exactly the normal names that are more than a slash. */
  lemma ExactRoundTrip(text: seq<Byte> -> bool, ns: string, bridgeNs: string, t: BridgeType, d: TopicDescriptor)
    requires DiscoveryKey(ns, bridgeNs, t, d).Some? && text(d.datatype_)
    ensures Decode(text, DiscoveryKey(ns, bridgeNs, t, d).value) == Decoded(t, d) <==>
      |d.name| > 1 && d.name[0] == '/' && d.name[1] != '/' && d.name[|d.name| - 1] != '/'
  {
    RoundTrip(text, ns, bridgeNs, t, d);
    NormalNames(d.name);
  }

  /** Two declarations share a key exactly if they agree in everything but slashes around the name. */
  lemma SameKey(ns: string, bridgeNs: string, t: BridgeType, d: TopicDescriptor,
                ns': string, bridgeNs': string, t': BridgeType, d': TopicDescriptor)
    requires DiscoveryKey(ns, bridgeNs, t, d).Some? && DiscoveryKey(ns', bridgeNs', t', d').Some?
    ensures DiscoveryKey(ns, bridgeNs, t, d) == DiscoveryKey(ns', bridgeNs', t', d') <==>
      ns == ns' && bridgeNs == bridgeNs' && t == t' && d.(name := Normal(d.name)) == d'.(name := Normal(d'.name))
  {
    KeyChunks(ns, bridgeNs, t, d);
    KeyChunks(ns', bridgeNs', t', d');
    var c, c' := Split(DiscoveryKey(ns, bridgeNs, t, d).value), Split(DiscoveryKey(ns', bridgeNs', t', d').value);
    if c == c' {
      assert c[1] == c'[1] && c[2] == c'[2] && c[3] == c'[3] && c[4] == c'[4] && c[5] == c'[5];
      HexRoundTrip(d.datatype_);
      HexRoundTrip(d'.datatype_);
      assert c[6..] == Body(TopicKey(d.name)) && c'[6..] == Body(TopicKey(d'.name));
      JoinSplit(TopicKey(d.name));
      JoinSplit(TopicKey(d'.name));
      ClassRoundTrip(t);
      ClassRoundTrip(t');
    }
    if Normal(d.name) == Normal(d'.name) {
      assert Normal(d.name)[1..] == TopicKey(d.name) && Normal(d'.name)[1..] == TopicKey(d'.name);
    }
  }

  /** What is decoded from a key, chunk by chunk. */
  lemma DecodedChunks(text: seq<Byte> -> bool, key: string)
    requires Decode(text, key).Decoded? && forall i | 0 <= i < |Split(key)| :: Split(key)[i] != ""
    ensures var c, r := Split(key), Decode(text, key);
      && |c| > 6 && HexDecode(c[3]) == Some(r.d.datatype_) && r.d.datatype_ != []
      && c[0] == ROOT && c[2] == Class(r.t) && c[4] == r.d.md5
      && TopicKey(r.d.name) != "" && Split(TopicKey(r.d.name)) == c[6..]
  {
    hide Split, Join, HexDecode, TopicKey;
    var c := Split(key);
    HexOfSome(c[3]);
    SplitJoin(c[6..]);
    JoinedEnds(c[6..]);
    TrimmedOnce(Join(c[6..]));
  }

  /** The other way round: a key that can be decoded and whose chunks are not empty is the key declared for
      what it is decoded to, exactly if its data type is in lower case. */
  lemma Rewrite(text: seq<Byte> -> bool, key: string)
    requires Decode(text, key).Decoded? && forall i | 0 <= i < |Split(key)| :: Split(key)[i] != ""
    ensures var c, r := Split(key), Decode(text, key);
      |c| > 6 && (DiscoveryKey(c[1], c[5], r.t, r.d) == Some(key) <==> LowerCase(c[3]))
  {
    DecodedChunks(text, key);
    hide Decode, Split, HexDecode, HexEncode, TopicKey, Join, LowerCase;
    var c, r := Split(key), Decode(text, key);
    HexRewrite(c[3]);
    JoinSplit(key);
    var hex := HexEncode(r.d.datatype_);
    var written := [c[0], c[1], c[2], hex, c[4], c[5]] + c[6..];
    assert DiscoveryKey(c[1], c[5], r.t, r.d) == Some(Join(written));
    OnlyHexChanged(written, c, hex);
    SplitJoin(written);
  }

  lemma OnlyHexChanged(written: seq<string>, c: seq<string>, hex: string)
    requires |c| > 6 && written == [c[0], c[1], c[2], hex, c[4], c[5]] + c[6..]
    requires '/' !in hex && forall i | 0 <= i < |c| :: '/' !in c[i]
    ensures written == c <==> hex == c[3]
    ensures forall i | 0 <= i < |written| :: '/' !in written[i]
  {
    assert written[3] == hex;
    if hex == c[3] {
      assert c == c[..6] + c[6..];
    }
  }

  lemma HexOfSome(s: string)
    requires s != "" && HexDecode(s).Some?
    ensures HexDecode(s).value != []
  {
  }

  /** Joining non-empty chunks gives a text that neither starts nor ends with a slash. */
  lemma {:induction false} JoinedEnds(chunks: seq<string>)
    requires |chunks| > 0 && forall i | 0 <= i < |chunks| :: chunks[i] != "" && '/' !in chunks[i]
    ensures var s := Join(chunks); s != "" && s[0] != '/' && s[|s| - 1] != '/'
  {
    if |chunks| > 1 {
      JoinedEnds(chunks[1..]);
    }
  }

  // ------------------------------------------------------------------ data keys

  /** `make_zenoh_key`: where a topic's data flow. */
  function DataKey(bridgeNs: string, d: TopicDescriptor): Option<string> {
    var datatype_, body := HexEncode(d.datatype_), TopicKey(d.name);
    if Chunk(datatype_) && Chunk(d.md5) && Chunk(bridgeNs) && Chunks(body)
    then Some(Join([datatype_, d.md5, bridgeNs] + Body(body)))
    else None
  }

  /** The chunks of a data key are the data type, the checksum, the bridge's namespace and the topic. */
  lemma DataKeyChunks(bridgeNs: string, d: TopicDescriptor)
    requires DataKey(bridgeNs, d).Some?
    ensures var c := Split(DataKey(bridgeNs, d).value);
      && |c| >= 3 && c[0] == HexEncode(d.datatype_) && c[1] == d.md5 && c[2] == bridgeNs
      && (TopicKey(d.name) == "" ==> |c| == 3) && (TopicKey(d.name) != "" ==> c[3..] == Split(TopicKey(d.name)))
  {
    hide Split, Join, HexEncode, TopicKey;
    SplitJoin([HexEncode(d.datatype_), d.md5, bridgeNs] + Body(TopicKey(d.name)));
  }

  /** A topic that could be declared has a data key, and the topic decoded from its declaration has the same
      one: both ends of a discovered topic use one key. Different topics use different keys. */
  lemma BothEndsShareDataKey(ns: string, bridgeNs: string, t: BridgeType, d: TopicDescriptor, d': TopicDescriptor)
    requires DiscoveryKey(ns, bridgeNs, t, d).Some?
    ensures DataKey(bridgeNs, d).Some?
    ensures DataKey(bridgeNs, d.(name := Normal(d.name))) == DataKey(bridgeNs, d)
    ensures DataKey(bridgeNs, d') == DataKey(bridgeNs, d) ==> d'.(name := Normal(d'.name)) == d.(name := Normal(d.name))
  {
    NormalIsIdempotent(d.name);
    if DataKey(bridgeNs, d') == DataKey(bridgeNs, d) {
      var c := [HexEncode(d.datatype_), d.md5, bridgeNs] + Body(TopicKey(d.name));
      var c' := [HexEncode(d'.datatype_), d'.md5, bridgeNs] + Body(TopicKey(d'.name));
      SplitJoin(c);
      SplitJoin(c');
      assert c[0] == c'[0] && c[1] == c'[1] && c[3..] == c'[3..];
      assert c[3..] == Body(TopicKey(d.name)) && c'[3..] == Body(TopicKey(d'.name));
      HexRoundTrip(d.datatype_);
      HexRoundTrip(d'.datatype_);
      JoinSplit(TopicKey(d.name));
      JoinSplit(TopicKey(d'.name));
    }
  }
}
