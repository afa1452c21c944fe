/** Store paths (solo-machine-core/src/ibc/core/ics24_host/path.rs): the keys under which records are kept and
    the paths that proofs are signed for. */
module Paths {
  import opened Wrappers
  import opened Text
  import opened Identifier
  import opened Height

  /** What a store path names. */
  datatype StorePath =
    | ClientType(clientId: string)
    | ClientState(clientId: string)
    | ConsensusState(clientId: string, height: Height)
    | Connection(connectionId: string)
    | Channel(portId: string, channelId: string)
    | PacketCommitment(portId: string, channelId: string, sequence: nat)
    | PacketAcknowledgement(portId: string, channelId: string, sequence: nat)
  {
    /** Every identifier passed its parser and every number fits 64 bits. */
    predicate Valid() {
      match this
      case ClientType(id) => IsId(id, CLIENT_MIN_LEN)
      case ClientState(id) => IsId(id, CLIENT_MIN_LEN)
      case ConsensusState(id, height) => IsId(id, CLIENT_MIN_LEN) && height.Valid()
      case Connection(id) => IsId(id, CONNECTION_MIN_LEN)
      case Channel(port, id) => IsId(port, PORT_MIN_LEN) && IsId(id, CHANNEL_MIN_LEN)
      case PacketCommitment(port, id, n) => IsId(port, PORT_MIN_LEN) && IsId(id, CHANNEL_MIN_LEN) && n <= U64_MAX
      case PacketAcknowledgement(port, id, n) => IsId(port, PORT_MIN_LEN) && IsId(id, CHANNEL_MIN_LEN) && n <= U64_MAX
    }
  }

  /** The printed path. */
  function Key(path: StorePath): string {
    match path
    case ClientType(id) => "clients" + "/" + id + "/" + "clientType"
    case ClientState(id) => "clients" + "/" + id + "/" + "clientState"
    case ConsensusState(id, height) => "clients" + "/" + id + "/" + "consensusStates" + "/" + height.Print()
    case Connection(id) => "connections" + "/" + id
    case Channel(port, id) => "channelEnds" + "/" + "ports" + "/" + port + "/" + "channels" + "/" + id
    case PacketCommitment(port, id, n) =>
      "commitments" + "/" + "ports" + "/" + port + "/" + "channels" + "/" + id + "/" + "sequences" + "/" + Decimal(n)
    case PacketAcknowledgement(port, id, n) =>
      "acks" + "/" + "ports" + "/" + port + "/" + "channels" + "/" + id + "/" + "sequences" + "/" + Decimal(n)
  }

  /** How paths are written (ICS-024, "Path-space"). */
  lemma KeyText(path: StorePath)
    ensures match path
      case ClientType(id) => Key(path) == "clients/" + id + "/clientType"
      case ClientState(id) => Key(path) == "clients/" + id + "/clientState"
      case ConsensusState(id, h) => Key(path) == "clients/" + id + "/consensusStates/" + h.Print()
      case Connection(id) => Key(path) == "connections/" + id
      case Channel(port, id) => Key(path) == "channelEnds/ports/" + port + "/channels/" + id
      case PacketCommitment(port, id, n) =>
        Key(path) == "commitments/ports/" + port + "/channels/" + id + "/sequences/" + Decimal(n)
      case PacketAcknowledgement(port, id, n) =>
        Key(path) == "acks/ports/" + port + "/channels/" + id + "/sequences/" + Decimal(n)
  {
    match path
    case ClientType(id) =>
      assert "clients" + "/" == "clients/" && "/" + "clientType" == "/clientType";
    case ClientState(id) =>
      assert "clients" + "/" == "clients/" && "/" + "clientState" == "/clientState";
    case ConsensusState(id, h) =>
      assert "clients" + "/" == "clients/" && "/" + "consensusStates" + "/" == "/consensusStates/";
    case Connection(id) =>
      assert "connections" + "/" == "connections/";
    case Channel(port, id) =>
      assert "channelEnds" + "/" + "ports" + "/" == "channelEnds/ports/" && "/" + "channels" + "/" == "/channels/";
    case PacketCommitment(port, id, n) =>
      PacketText("commitments", "commitments/ports/", port, id, Decimal(n));
    case PacketAcknowledgement(port, id, n) =>
      PacketText("acks", "acks/ports/", port, id, Decimal(n));
  }

  lemma PacketText(kind: string, front: string, port: string, id: string, n: string)
    requires kind + "/" + "ports" + "/" == front
    ensures kind + "/" + "ports" + "/" + port + "/" + "channels" + "/" + id + "/" + "sequences" + "/" + n ==
      front + port + "/channels/" + id + "/sequences/" + n
  {
    assert "/" + "channels" + "/" == "/channels/" && "/" + "sequences" + "/" == "/sequences/";
    assert front + port + "/" + "channels" + "/" == front + port + "/channels/";
  }

  /** The printed path cut at its separators. */
  function Segments(path: StorePath): seq<string> {
    match path
    case ClientType(id) => ["clients", id, "clientType"]
    case ClientState(id) => ["clients", id, "clientState"]
    case ConsensusState(id, height) => ["clients", id, "consensusStates", height.Print()]
    case Connection(id) => ["connections", id]
    case Channel(port, id) => ["channelEnds", "ports", port, "channels", id]
    case PacketCommitment(port, id, n) => ["commitments", "ports", port, "channels", id, "sequences", Decimal(n)]
    case PacketAcknowledgement(port, id, n) => ["acks", "ports", port, "channels", id, "sequences", Decimal(n)]
  }

  lemma PrintedNumbersAreFree(n: nat, h: Height)
    ensures Free('/', Decimal(n)) && Free('/', h.Print())
  {
    DecimalCanonical(n);
    DecimalCanonical(h.revisionNumber);
    DecimalCanonical(h.revisionHeight);
    DigitsFree('/', Decimal(n));
    DigitsFree('/', Decimal(h.revisionNumber));
    DigitsFree('/', Decimal(h.revisionHeight));
  }

  /** Joining can be done from the left. */
  lemma {:induction false} JoinAppend(pieces: seq<string>, last: string)
    requires |pieces| > 0
    ensures Join('/', pieces + [last]) == Join('/', pieces) + "/" + last
  {
    var all := pieces + [last];
    if |pieces| == 1 {
      assert all[1..] == [last];
    } else {
      assert all[1..] == pieces[1..] + [last];
      JoinAppend(pieces[1..], last);
      assert all[0] == pieces[0];
    }
  }

  lemma JoinThree(a: string, b: string, c: string)
    ensures Join('/', [a, b]) == a + "/" + b
    ensures Join('/', [a, b, c]) == a + "/" + b + "/" + c
  {
    JoinAppend([a], b);
    JoinAppend([a, b], c);
    assert [a] + [b] == [a, b] && [a, b] + [c] == [a, b, c];
  }

  lemma JoinFive(a: string, b: string, c: string, d: string, e: string)
    ensures Join('/', [a, b, c, d]) == a + "/" + b + "/" + c + "/" + d
    ensures Join('/', [a, b, c, d, e]) == a + "/" + b + "/" + c + "/" + d + "/" + e
  {
    JoinThree(a, b, c);
    JoinAppend([a, b, c], d);
    JoinAppend([a, b, c, d], e);
    assert [a, b, c] + [d] == [a, b, c, d] && [a, b, c, d] + [e] == [a, b, c, d, e];
  }

  lemma JoinSeven(a: string, b: string, c: string, d: string, e: string, f: string, g: string)
    ensures Join('/', [a, b, c, d, e, f, g]) == a + "/" + b + "/" + c + "/" + d + "/" + e + "/" + f + "/" + g
  {
    JoinFive(a, b, c, d, e);
    JoinAppend([a, b, c, d, e], f);
    JoinAppend([a, b, c, d, e, f], g);
    assert [a, b, c, d, e] + [f] == [a, b, c, d, e, f] && [a, b, c, d, e, f] + [g] == [a, b, c, d, e, f, g];
  }

  lemma KeyJoinsSegments(path: StorePath)
    ensures Key(path) == Join('/', Segments(path))
  {
    match path
    case ClientType(id) => JoinThree("clients", id, "clientType");
    case ClientState(id) => JoinThree("clients", id, "clientState");
    case ConsensusState(id, height) => JoinFive("clients", id, "consensusStates", height.Print(), "");
    case Connection(id) => JoinThree("connections", id, "");
    case Channel(port, id) => JoinFive("channelEnds", "ports", port, "channels", id);
    case PacketCommitment(port, id, n) =>
      JoinSeven("commitments", "ports", port, "channels", id, "sequences", Decimal(n));
    case PacketAcknowledgement(port, id, n) =>
      JoinSeven("acks", "ports", port, "channels", id, "sequences", Decimal(n));
  }

  lemma NamesAreFree()
    ensures Free('/', "clients") && Free('/', "clientType") && Free('/', "clientState") && Free('/', "consensusStates")
    ensures Free('/', "connections") && Free('/', "channelEnds") && Free('/', "ports") && Free('/', "channels")
    ensures Free('/', "commitments") && Free('/', "acks") && Free('/', "sequences") && Free('/', "")
  {
  }

  lemma PacketSegmentsAreFree(path: StorePath)
    requires path.Valid() && (path.PacketCommitment? || path.PacketAcknowledgement?)
    ensures forall i | 0 <= i < |Segments(path)| :: Free('/', Segments(path)[i])
  {
    NamesAreFree();
    ParseIdAccepts(path.portId, PORT_MIN_LEN);
    ParseIdAccepts(path.channelId, CHANNEL_MIN_LEN);
    PrintedNumbersAreFree(path.sequence, Height(0, 0));
  }

  lemma SegmentsAreFree(path: StorePath)
    requires path.Valid()
    ensures forall i | 0 <= i < |Segments(path)| :: Free('/', Segments(path)[i])
  {
    NamesAreFree();
    match path
    case ClientType(id) => ParseIdAccepts(id, CLIENT_MIN_LEN);
    case ClientState(id) => ParseIdAccepts(id, CLIENT_MIN_LEN);
    case ConsensusState(id, height) =>
      ParseIdAccepts(id, CLIENT_MIN_LEN);
      PrintedNumbersAreFree(0, height);
    case Connection(id) => ParseIdAccepts(id, CONNECTION_MIN_LEN);
    case Channel(port, id) =>
      ParseIdAccepts(port, PORT_MIN_LEN);
      ParseIdAccepts(id, CHANNEL_MIN_LEN);
    case _ => PacketSegmentsAreFree(path);
  }

  lemma SegmentsInjective(p: StorePath, q: StorePath)
    requires Segments(p) == Segments(q)
    ensures p == q
  {
    var s, t := Segments(p), Segments(q);
    assert s[0] == t[0] && s[1] == t[1] && s[|s| - 1] == t[|t| - 1];
    if |s| >= 5 {
      assert s[2] == t[2] && s[4] == t[4];
    }
    if p.ConsensusState? && q.ConsensusState? {
      PrintInjective(p.height, q.height);
    }
    if (p.PacketCommitment? || p.PacketAcknowledgement?) && (q.PacketCommitment? || q.PacketAcknowledgement?) {
      DecimalInjective(p.sequence, q.sequence);
    }
  }

  /** Two valid store paths print equal only if they have the same kind and the same arguments. */
  lemma KeyInjective(p: StorePath, q: StorePath)
    requires p.Valid() && q.Valid() && Key(p) == Key(q)
    ensures p == q
  {
    KeyJoinsSegments(p);
    KeyJoinsSegments(q);
    SegmentsAreFree(p);
    SegmentsAreFree(q);
    SplitJoin('/', Segments(p));
    SplitJoin('/', Segments(q));
    SegmentsInjective(p, q);
  }

  /** The text that is hashed into an IBC denomination. */
  function DenomTrace(portId: string, channelId: string, denom: string): string {
    portId + "/" + channelId + "/" + denom
  }

  lemma DenomTraceInjective(p: string, c: string, d: string, p': string, c': string, d': string)
    requires IsId(p, PORT_MIN_LEN) && IsId(c, CHANNEL_MIN_LEN) && IsId(d, 1)
    requires IsId(p', PORT_MIN_LEN) && IsId(c', CHANNEL_MIN_LEN) && IsId(d', 1)
    requires DenomTrace(p, c, d) == DenomTrace(p', c', d')
    ensures p == p' && c == c' && d == d'
  {
    ParseIdAccepts(p, PORT_MIN_LEN);
    ParseIdAccepts(c, CHANNEL_MIN_LEN);
    ParseIdAccepts(d, 1);
    ParseIdAccepts(p', PORT_MIN_LEN);
    ParseIdAccepts(c', CHANNEL_MIN_LEN);
    ParseIdAccepts(d', 1);
    JoinThree(p, c, d);
    JoinThree(p', c', d');
    SplitJoin('/', [p, c, d]);
    SplitJoin('/', [p', c', d']);
  }

  // ----- paths as objects, with a commitment prefix put in front -----

  function TrimStart(s: string): string {
    if s != [] && IsWhitespace(s[0]) then TrimStart(s[1..]) else s
  }

  function TrimEnd(s: string): string {
    if s != [] && IsWhitespace(s[|s| - 1]) then TrimEnd(s[..|s| - 1]) else s
  }

  /** `str::trim`. */
  function Trim(s: string): string {
    TrimEnd(TrimStart(s))
  }

  predicate Blank(s: string) {
    forall i | 0 <= i < |s| :: IsWhitespace(s[i])
  }

  lemma {:induction false} TrimStartCuts(s: string) returns (front: string)
    ensures s == front + TrimStart(s) && Blank(front)
    ensures TrimStart(s) != "" ==> !IsWhitespace(TrimStart(s)[0])
  {
    if s == "" || !IsWhitespace(s[0]) {
      front := "";
    } else {
      front := TrimStartCuts(s[1..]);
      front := [s[0]] + front;
      assert s == [s[0]] + s[1..];
    }
  }

  lemma {:induction false} TrimEndCuts(s: string) returns (back: string)
    ensures s == TrimEnd(s) + back && Blank(back)
    ensures TrimEnd(s) != "" ==> !IsWhitespace(TrimEnd(s)[|TrimEnd(s)| - 1])
  {
    if s == "" || !IsWhitespace(s[|s| - 1]) {
      back := "";
    } else {
      back := TrimEndCuts(s[..|s| - 1]);
      back := back + [s[|s| - 1]];
      assert s == s[..|s| - 1] + [s[|s| - 1]];
    }
  }

  /** Trimming takes white space off both ends and nothing else. */
  lemma TrimCuts(s: string) returns (front: string, back: string)
    ensures s == front + Trim(s) + back && Blank(front) && Blank(back)
    ensures Trim(s) != "" ==> !IsWhitespace(Trim(s)[0]) && !IsWhitespace(Trim(s)[|Trim(s)| - 1])
  {
    front := TrimStartCuts(s);
    back := TrimEndCuts(TrimStart(s));
    if Trim(s) != "" {
      assert TrimStart(s)[0] == Trim(s)[0];
    }
  }

  class Path {
    var keyPath: seq<string>

    constructor (key: string)
      ensures keyPath == [key]
    {
      keyPath := [key];
    }

    /** Puts the trimmed prefix in front; a blank prefix is refused and changes nothing. */
    method ApplyPrefix(prefix: string) returns (ok: bool)
      modifies this
      ensures ok == (Trim(prefix) != "")
      ensures keyPath == if ok then [Trim(prefix)] + old(keyPath) else old(keyPath)
    {
      if Trim(prefix) == "" {
        return false;
      }
      keyPath := [Trim(prefix)] + keyPath;
      return true;
    }

    function GetKey(index: nat): Option<string>
      reads this
    {
      if index < |keyPath| then Some(keyPath[index]) else None
    }
  }

  /** The path a proof is signed for: the prefix "ibc" is put in front and the key behind it is taken, which is
      the very key under which the record is stored. */
  method SignedKey(path: StorePath) returns (key: Option<string>)
    ensures key == Some(Key(path))
  {
    var p := new Path(Key(path));
    assert Trim("ibc") == "ibc";
    var ok := p.ApplyPrefix("ibc");
    if !ok {
      return None;
    }
    key := p.GetKey(1);
  }
}
