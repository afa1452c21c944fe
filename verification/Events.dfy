/** Reading transaction events (solo-machine-core/src/service/ibc_service.rs, `extract_packets`, `extract_attribute`
    and `get_attribute`). */
module Events {
  import opened Wrappers
  import opened Bytes
  import opened Text
  import opened Height
  import H = Height
  import opened Records

  /** Key and value of a tag; None where the bytes are not readable text. */
  datatype Tag = Tag(key: Option<string>, value: Option<string>)

  datatype AbciEvent = AbciEvent(kind: string, attributes: seq<Tag>)

  datatype ExtractError = Unreadable | Missing(key: string) | Invalid(key: string)

  // ----- one attribute -----

  /** Tag `i` is the first with the key, and everything up to it is readable. */
  predicate FirstMatch(tags: seq<Tag>, key: string, i: nat) {
    && i < |tags| && tags[i].key == Some(key) && tags[i].value.Some?
    && forall j | 0 <= j < i :: tags[j].key.Some? && tags[j].key != Some(key)
  }

  method GetAttribute(tags: seq<Tag>, key: string) returns (attribute: Result<string, ExtractError>)
    ensures attribute.Ok? <==> exists i: nat :: FirstMatch(tags, key, i)
    ensures attribute.Ok? ==> exists i: nat :: FirstMatch(tags, key, i) && tags[i].value == Some(attribute.value)
  {
    for k := 0 to |tags|
      invariant forall j | 0 <= j < k :: tags[j].key.Some? && tags[j].key != Some(key)
    {
      if tags[k].key.None? {
        return Err(Unreadable);
      }
      if tags[k].key.value == key {
        if tags[k].value.None? {
          return Err(Unreadable);
        }
        assert FirstMatch(tags, key, k);
        return Ok(tags[k].value.value);
      }
    }
    return Err(Missing(key));
  }

  ghost predicate Carries(event: AbciEvent, key: string, value: string) {
    exists i: nat :: FirstMatch(event.attributes, key, i) && event.attributes[i].value == Some(value)
  }

  lemma CarriesOneValue(event: AbciEvent, key: string, v: string, w: string)
    requires Carries(event, key, v) && Carries(event, key, w)
    ensures v == w
  {
    var i: nat :| FirstMatch(event.attributes, key, i) && event.attributes[i].value == Some(v);
    var j: nat :| FirstMatch(event.attributes, key, j) && event.attributes[j].value == Some(w);
    assert !(i < j) && !(j < i);
  }

  /** Event `k` is the last of its kind. */
  predicate LastOfKind(events: seq<AbciEvent>, kind: string, k: nat) {
    k < |events| && events[k].kind == kind && forall j | k < j < |events| :: events[j].kind != kind
  }

  /** Succeeds exactly when there is an event of the kind and every event of the kind carries the key, and then
      returns what the last such event carries. */
  method ExtractAttribute(events: seq<AbciEvent>, kind: string, key: string)
    returns (result: Result<string, ExtractError>)
    ensures result.Ok? <==>
      && (exists k | 0 <= k < |events| :: events[k].kind == kind)
      && (forall k | 0 <= k < |events| && events[k].kind == kind ::
            exists i: nat :: FirstMatch(events[k].attributes, key, i))
    ensures result.Ok? ==> exists k: nat ::
      && LastOfKind(events, kind, k)
      && Carries(events[k], key, result.value)
      && (forall value | Carries(events[k], key, value) :: value == result.value)
  {
    var attribute: Option<string> := None;
    ghost var last: nat := 0;
    for n := 0 to |events|
      invariant attribute.Some? <==> exists k | 0 <= k < n :: events[k].kind == kind
      invariant forall k | 0 <= k < n && events[k].kind == kind ::
        exists i: nat :: FirstMatch(events[k].attributes, key, i)
      invariant attribute.Some? ==> LastOfKind(events[..n], kind, last) && Carries(events[last], key, attribute.value)
    {
      if events[n].kind == kind {
        var found := GetAttribute(events[n].attributes, key);
        if found.Err? {
          return Err(found.error);
        }
        attribute := Some(found.value);
        last := n;
      }
    }
    if attribute.None? {
      return Err(Missing(key));
    }
    assert events[..|events|] == events;
    forall value | Carries(events[last], key, value)
      ensures value == attribute.value
    {
      CarriesOneValue(events[last], key, value, attribute.value);
    }
    return Ok(attribute.value);
  }

  // ----- packets -----

  const SEND_PACKET := "send_packet"

  ghost predicate Readable(tags: seq<Tag>) {
    forall j | 0 <= j < |tags| :: tags[j].key.Some? && tags[j].value.Some?
  }

  /** The value of the last tag with the key. */
  ghost function LastValue(tags: seq<Tag>, key: string): Option<string> {
    if tags == [] then None
    else if tags[|tags| - 1].key == Some(key) then tags[|tags| - 1].value
    else LastValue(tags[..|tags| - 1], key)
  }

  /** The tags as a map; a later tag replaces an earlier one with the same key. */
  function AttributesOf(tags: seq<Tag>): Option<map<string, string>> {
    if tags == [] then Some(map[])
    else
      var init, last := AttributesOf(tags[..|tags| - 1]), tags[|tags| - 1];
      if init.None? || last.key.None? || last.value.None? then None
      else Some(init.value[last.key.value := last.value.value])
  }

  /** Looking a key up in the map finds the value of the last tag with that key. */
  lemma {:induction false} LastTagWins(tags: seq<Tag>, key: string)
    ensures AttributesOf(tags).Some? <==> Readable(tags)
    ensures AttributesOf(tags).Some? ==>
      var attributes := AttributesOf(tags).value;
      LastValue(tags, key) == if key in attributes then Some(attributes[key]) else None
  {
    if tags == [] {
    } else {
      LastTagWins(tags[..|tags| - 1], key);
    }
  }

  function Number(attributes: map<string, string>, key: string): Result<nat, ExtractError> {
    if key !in attributes then Err(Missing(key))
    else match ParseU64(attributes[key])
      case None => Err(Invalid(key))
      case Some(n) => Ok(n)
  }

  /** The packet that a map of attributes describes. */
  function PacketFrom(attributes: map<string, string>): Result<Packet, ExtractError> {
    var sequence := Number(attributes, "packet_sequence");
    if sequence.Err? then Err(sequence.error)
    else if "packet_src_port" !in attributes then Err(Missing("packet_src_port"))
    else if "packet_src_channel" !in attributes then Err(Missing("packet_src_channel"))
    else if "packet_dst_port" !in attributes then Err(Missing("packet_dst_port"))
    else if "packet_dst_channel" !in attributes then Err(Missing("packet_dst_channel"))
    else if "packet_data_hex" !in attributes then Err(Missing("packet_data_hex"))
    else
      var data := DecodeHex(attributes["packet_data_hex"]);
      if data.None? then Err(Invalid("packet_data_hex"))
      else if "packet_timeout_height" !in attributes then Err(Missing("packet_timeout_height"))
      else
        var height := H.Parse(attributes["packet_timeout_height"]);
        if height.Err? then Err(Invalid("packet_timeout_height"))
        else
          var timestamp := Number(attributes, "packet_timeout_timestamp");
          if timestamp.Err? then Err(timestamp.error)
          else
            Ok(Packet(sequence.value, attributes["packet_src_port"], attributes["packet_src_channel"],
                      attributes["packet_dst_port"], attributes["packet_dst_channel"], data.value,
                      Some(height.value), timestamp.value))
  }

  /** The event reports the packet: its tags are readable, and for each field the last tag prints it. */
  ghost predicate Reports(event: AbciEvent, p: Packet) {
    && event.kind == SEND_PACKET
    && Readable(event.attributes)
    && p.timeoutHeight.Some? && p.timeoutHeight.value.Valid()
    && p.sequence <= U64_MAX && p.timeoutTimestamp <= U64_MAX
    && LastValue(event.attributes, "packet_sequence") == Some(Decimal(p.sequence))
    && LastValue(event.attributes, "packet_src_port") == Some(p.sourcePort)
    && LastValue(event.attributes, "packet_src_channel") == Some(p.sourceChannel)
    && LastValue(event.attributes, "packet_dst_port") == Some(p.destinationPort)
    && LastValue(event.attributes, "packet_dst_channel") == Some(p.destinationChannel)
    && LastValue(event.attributes, "packet_data_hex") == Some(EncodeHex(p.data))
    && LastValue(event.attributes, "packet_timeout_height") == Some(p.timeoutHeight.value.Print())
    && LastValue(event.attributes, "packet_timeout_timestamp") == Some(Decimal(p.timeoutTimestamp))
  }

  function PacketOf(event: AbciEvent): Result<Packet, ExtractError> {
    match AttributesOf(event.attributes)
    case None => Err(Unreadable)
    case Some(attributes) => PacketFrom(attributes)
  }

  /** The tags are readable, and for each field of the packet the last tag with its key reads as that field. */
  ghost predicate Describes(event: AbciEvent, p: Packet) {
    && Readable(event.attributes)
    && ReadsAs(event, "packet_sequence", p.sequence)
    && LastValue(event.attributes, "packet_src_port") == Some(p.sourcePort)
    && LastValue(event.attributes, "packet_src_channel") == Some(p.sourceChannel)
    && LastValue(event.attributes, "packet_dst_port") == Some(p.destinationPort)
    && LastValue(event.attributes, "packet_dst_channel") == Some(p.destinationChannel)
    && LastValue(event.attributes, "packet_data_hex").Some?
    && DecodeHex(LastValue(event.attributes, "packet_data_hex").value) == Some(p.data)
    && LastValue(event.attributes, "packet_timeout_height").Some? && p.timeoutHeight.Some?
    && H.Parse(LastValue(event.attributes, "packet_timeout_height").value) == Ok(p.timeoutHeight.value)
    && ReadsAs(event, "packet_timeout_timestamp", p.timeoutTimestamp)
  }

  ghost predicate ReadsAs(event: AbciEvent, key: string, n: nat) {
    LastValue(event.attributes, key).Some? && ParseU64(LastValue(event.attributes, key).value) == Some(n)
  }

  /** An event yields a packet exactly when it describes it; in all other cases it yields an error. */
  lemma PacketOfIff(event: AbciEvent, p: Packet)
    ensures PacketOf(event) == Ok(p) <==> Describes(event, p)
  {
    LastTagWins(event.attributes, "packet_sequence");
    LastTagWins(event.attributes, "packet_src_port");
    LastTagWins(event.attributes, "packet_src_channel");
    LastTagWins(event.attributes, "packet_dst_port");
    LastTagWins(event.attributes, "packet_dst_channel");
    LastTagWins(event.attributes, "packet_data_hex");
    LastTagWins(event.attributes, "packet_timeout_height");
    LastTagWins(event.attributes, "packet_timeout_timestamp");
  }

  /** A printed packet is described. */
  lemma ReportedIsDescribed(event: AbciEvent, p: Packet)
    requires Reports(event, p)
    ensures Describes(event, p)
  {
    ParseDecimal(p.sequence);
    ParseDecimal(p.timeoutTimestamp);
    PrintParse(p.timeoutHeight.value);
    HexRoundTrip(p.data);
  }

  /** The packets of all `send_packet` events, or the first error. */
  function PacketsIn(events: seq<AbciEvent>): Result<seq<Packet>, ExtractError> {
    if events == [] then Ok([])
    else
      var init, last := PacketsIn(events[..|events| - 1]), events[|events| - 1];
      if init.Err? || last.kind != SEND_PACKET then init
      else match PacketOf(last)
        case Err(e) => Err(e)
        case Ok(packet) => Ok(init.value + [packet])
  }

  lemma {:induction false} ErrorStays(events: seq<AbciEvent>, n: nat)
    requires n <= |events| && PacketsIn(events[..n]).Err?
    ensures PacketsIn(events) == PacketsIn(events[..n])
    decreases |events|
  {
    if n == |events| {
      assert events[..n] == events;
    } else {
      assert events[..|events| - 1][..n] == events[..n];
      ErrorStays(events[..|events| - 1], n);
    }
  }

  method ExtractPackets(events: seq<AbciEvent>) returns (result: Result<seq<Packet>, ExtractError>)
    ensures result == PacketsIn(events)
  {
    var packets: seq<Packet> := [];
    for n := 0 to |events|
      invariant PacketsIn(events[..n]) == Ok(packets)
    {
      assert events[..n + 1][..n] == events[..n];
      if events[n].kind == SEND_PACKET {
        var attributes: map<string, string> := map[];
        for k := 0 to |events[n].attributes|
          invariant AttributesOf(events[n].attributes[..k]) == Some(attributes)
        {
          var tag := events[n].attributes[k];
          assert events[n].attributes[..k + 1][..k] == events[n].attributes[..k];
          if tag.key.None? || tag.value.None? {
            assert !Readable(events[n].attributes);
            LastTagWins(events[n].attributes, "");
            ErrorStays(events, n + 1);
            return Err(Unreadable);
          }
          attributes := attributes[tag.key.value := tag.value.value];
        }
        assert events[n].attributes[..|events[n].attributes|] == events[n].attributes;
        var packet := PacketFrom(attributes);
        if packet.Err? {
          ErrorStays(events, n + 1);
          return Err(packet.error);
        }
        packets := packets + [packet.value];
      }
    }
    assert events[..|events|] == events;
    return Ok(packets);
  }

  /** The `send_packet` events of the list describe the packets, in order; events of other kinds may stand anywhere
      between. */
  ghost predicate AllDescribe(events: seq<AbciEvent>, packets: seq<Packet>) {
    if events == [] then packets == []
    else
      var init, last := events[..|events| - 1], events[|events| - 1];
      if last.kind == "send_packet" then
        packets != [] && Describes(last, packets[|packets| - 1]) && AllDescribe(init, packets[..|packets| - 1])
      else AllDescribe(init, packets)
  }

  /** Extraction succeeds with exactly the packets that the events describe, and fails on every other list. */
  lemma {:induction false} ExtractedIffDescribed(events: seq<AbciEvent>, packets: seq<Packet>)
    ensures PacketsIn(events) == Ok(packets) <==> AllDescribe(events, packets)
    decreases |events|
  {
    if events == [] {
    } else {
      var init, last := events[..|events| - 1], events[|events| - 1];
      if last.kind != SEND_PACKET {
        ExtractedIffDescribed(init, packets);
      } else if packets != [] {
        ExtractedIffDescribed(init, packets[..|packets| - 1]);
        PacketOfIff(last, packets[|packets| - 1]);
        assert packets == packets[..|packets| - 1] + [packets[|packets| - 1]];
        if PacketsIn(events) == Ok(packets) {
          assert PacketsIn(init).value == packets[..|packets| - 1];
        }
      }
    }
  }

  /** The event list reports the packets, in order. */
  ghost predicate AllReport(events: seq<AbciEvent>, packets: seq<Packet>) {
    if events == [] then packets == []
    else
      var init, last := events[..|events| - 1], events[|events| - 1];
      if last.kind == SEND_PACKET then
        packets != [] && Reports(last, packets[|packets| - 1]) && AllReport(init, packets[..|packets| - 1])
      else AllReport(init, packets)
  }

  /** Whatever packets an event list reports, exactly these are extracted, in order. */
  lemma {:induction false} ReportedPacketsAreExtracted(events: seq<AbciEvent>, packets: seq<Packet>)
    requires AllReport(events, packets)
    ensures PacketsIn(events) == Ok(packets)
    decreases |events|
  {
    ExtractedIffDescribed(events, packets);
    if events == [] {
    } else {
      var init, last := events[..|events| - 1], events[|events| - 1];
      var before := if last.kind == SEND_PACKET then packets[..|packets| - 1] else packets;
      ReportedPacketsAreExtracted(init, before);
      ExtractedIffDescribed(init, before);
      if last.kind == SEND_PACKET {
        ReportedIsDescribed(last, packets[|packets| - 1]);
      }
    }
  }
}
