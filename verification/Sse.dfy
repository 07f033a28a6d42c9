/**
 The wire format of packages/ai-runtime/src/sse.ts, and the reader the WHATWG HTML Living
 Standard prescribes for it (sections 9.2.5, Parsing an event stream, and 9.2.6,
 Interpreting an event stream). The reader undoes the printer.
 */
module Sse {
  import opened Wrappers
  import opened Text
  import opened Json
  import JsonReader
  import opened RunEvents

  // ---------- Printing ----------

  function OptionalText(key: string, value: Option<string>): seq<Field> {
    if value.Some? then [Field(key, Str(value.value))] else []
  }

  /** `{...event, schemaVersion: 1}`: the version keeps its place when the event already has one. */
  function Envelope(e: RunEvent): Json
  {
    var version := [Field("schemaVersion", Int(1))];
    Obj([Field("id", Str(e.id)), Field("runId", Str(e.runId)), Field("sequence", Int(e.sequence))]
        + (if e.versioned then version else [])
        + OptionalText("legId", e.legId) + OptionalText("channel", e.channel)
        + [Field("type", Str(Name(e.kind))), Field("data", e.data), Field("createdAt", Str(e.createdAt))]
        + (if e.versioned then [] else version))
  }

  function EventData(e: RunEvent): string
  {
    Write(Envelope(PublicRunEvent(e)))
  }

  function EncodeSseEvent(e: RunEvent): string
  {
    var safe := PublicRunEvent(e);
    "event: " + Name(safe.kind) + "\nid: " + Decimal(safe.sequence) + "\ndata: " + EventData(e) + "\n\n"
  }

  /** What a stream is made of: events, heartbeats, and the retry hint. */
  datatype Block =
    | Event(event: RunEvent)
    | Heartbeat
    | Retry(ms: nat)

  function PrintBlock(b: Block): string
  {
    match b
    case Event(e) => EncodeSseEvent(e)
    case Heartbeat => ": heartbeat\n\n"
    case Retry(ms) => "retry: " + Decimal(ms) + "\n\n"
  }

  function Print(blocks: seq<Block>): string
  {
    if blocks == [] then "" else PrintBlock(blocks[0]) + Print(blocks[1..])
  }

  // ---------- Reading, as the standard says ----------

  datatype Message = Message(kind: string, data: string, lastEventId: string)

  /** The buffers of section 9.2.6, the reconnection time, and the events dispatched so far. */
  datatype Reader = Reader(data: string, kind: string, id: string, retry: Option<nat>, dispatched: seq<Message>)

  const NEW_READER := Reader("", "", "", None, [])

  /** Complete lines, ended by LF, CR, or CR LF; an unfinished last line is discarded. */
  function Lines(s: string, pending: string): seq<string> {
    if s == "" then []
    else if s[0] == '\n' then [pending] + Lines(s[1..], "")
    else if s[0] == '\r' then [pending] + Lines(if |s| > 1 && s[1] == '\n' then s[2..] else s[1..], "")
    else Lines(s[1..], pending + [s[0]])
  }

  /** The position of the first colon, or the length. */
  function Colon(line: string): nat
    ensures Colon(line) <= |line|
    ensures Colon(line) < |line| ==> line[Colon(line)] == ':'
  {
    if line == "" || line[0] == ':' then 0 else 1 + Colon(line[1..])
  }

  function FieldName(line: string): string {
    line[..Colon(line)]
  }

  /** The rest after the colon, without one leading space. */
  function FieldValue(line: string): string {
    if Colon(line) == |line| then ""
    else
      var rest := line[Colon(line) + 1..];
      if rest != "" && rest[0] == ' ' then rest[1..] else rest
  }

  function ProcessField(r: Reader, name: string, value: string): Reader {
    if name == "event" then r.(kind := value)
    else if name == "data" then r.(data := r.data + value + "\n")
    else if name == "id" then if Lacks(value, '\0') then r.(id := value) else r
    else if name == "retry" then if IsDecimal(value) then r.(retry := Some(ReadDecimal(value))) else r
    else r
  }

  function Dispatch(r: Reader): Reader {
    if r.data == "" then r.(kind := "")
    else
      var data := if r.data[|r.data| - 1] == '\n' then r.data[..|r.data| - 1] else r.data;
      var kind := if r.kind == "" then "message" else r.kind;
      Reader("", "", r.id, r.retry, r.dispatched + [Message(kind, data, r.id)])
  }

  function ProcessLine(r: Reader, line: string): Reader {
    if line == "" then Dispatch(r)
    else if line[0] == ':' then r
    else ProcessField(r, FieldName(line), FieldValue(line))
  }

  function Interpret(r: Reader, lines: seq<string>): Reader
    decreases lines
  {
    if lines == [] then r else Interpret(ProcessLine(r, lines[0]), lines[1..])
  }

  const BOM: char := '\U{FEFF}'

  /** The whole reader: one leading byte order mark is ignored. */
  function Read(s: string): Reader {
    Interpret(NEW_READER, Lines(if s != "" && s[0] == BOM then s[1..] else s, ""))
  }

  // ---------- What reading a printed stream must give ----------

  function MessageOf(e: RunEvent): Message
  {
    Message(Name(PublicRunEvent(e).kind), EventData(e), Decimal(e.sequence))
  }

  /** What a reader that is between events makes of one block. */
  function Received(r: Reader, b: Block): Reader
  {
    match b
    case Event(e) => r.(id := Decimal(e.sequence), dispatched := r.dispatched + [MessageOf(e)])
    case Heartbeat => r
    case Retry(ms) => r.(retry := Some(ms))
  }

  function ReceivedAll(r: Reader, blocks: seq<Block>): Reader
    decreases blocks
  {
    if blocks == [] then r else ReceivedAll(Received(r, blocks[0]), blocks[1..])
  }

  function EventsOf(blocks: seq<Block>): seq<RunEvent> {
    if blocks == [] then []
    else (if blocks[0].Event? then [blocks[0].event] else []) + EventsOf(blocks[1..])
  }

  // ---------- Proof ----------

  lemma {:induction false} LineEnds(line: string, rest: string, pending: string)
    requires OneLine(line)
    ensures Lines(line + "\n" + rest, pending) == [pending + line] + Lines(rest, "")
  {
    var s := line + "\n" + rest;
    if line == "" {
      assert s == "\n" + rest && s[1..] == rest;
      assert pending + line == pending;
    } else {
      assert s[1..] == line[1..] + "\n" + rest;
      LineEnds(line[1..], rest, pending + [line[0]]);
      assert pending + [line[0]] + line[1..] == pending + line;
    }
  }

  lemma {:induction false} ColonAfter(name: string, rest: string)
    requires Lacks(name, ':')
    ensures Colon(name + ":" + rest) == |name|
  {
    if name == "" {
      assert name + ":" + rest == ":" + rest;
    } else {
      assert (name + ":" + rest)[1..] == name[1..] + ":" + rest;
      ColonAfter(name[1..], rest);
    }
  }

  /** A line printed as `name: value` is read back as that field. */
  lemma FieldLine(r: Reader, name: string, value: string)
    requires name != "" && Lacks(name, ':')
    ensures ProcessLine(r, name + ": " + value) == ProcessField(r, name, value)
  {
    var line := name + ": " + value;
    assert line == name + ":" + (" " + value);
    ColonAfter(name, " " + value);
    assert line[..|name|] == name && line[|name| + 1..] == " " + value;
    assert (" " + value)[1..] == value;
  }

  predicate AtRest(r: Reader) {
    r.data == "" && r.kind == ""
  }

  lemma DecimalIsOneLine(n: nat)
    ensures OneLine(Decimal(n)) && Lacks(Decimal(n), '\0')
  {
  }

  lemma OneLineField(name: string, value: string)
    requires OneLine(name) && OneLine(value)
    ensures OneLine(name + ": " + value)
  {
  }

  /** One field line in front of a stream: the reader takes it and goes on. */
  lemma ReadField(r: Reader, name: string, value: string, rest: string)
    requires name != "" && Lacks(name, ':') && OneLine(name) && OneLine(value)
    ensures Interpret(r, Lines(name + ": " + value + "\n" + rest, "")) ==
            Interpret(ProcessField(r, name, value), Lines(rest, ""))
  {
    OneLineField(name, value);
    LineEnds(name + ": " + value, rest, "");
    FieldLine(r, name, value);
    var line := name + ": " + value;
    assert "" + line == line;
    assert ([line] + Lines(rest, ""))[1..] == Lines(rest, "");
  }

  lemma ReadBlank(r: Reader, rest: string)
    ensures Interpret(r, Lines("\n" + rest, "")) == Interpret(Dispatch(r), Lines(rest, ""))
  {
    LineEnds("", rest, "");
    assert "" + "\n" + rest == "\n" + rest;
    assert ([""] + Lines(rest, ""))[1..] == Lines(rest, "");
  }

  /** The three lines of an event and the blank line after them. */
  lemma ReadLines(r: Reader, kind: string, id: string, data: string, rest: string)
    requires AtRest(r) && OneLine(kind) && OneLine(id) && OneLine(data) && kind != "" && Lacks(id, '\0')
    ensures Interpret(r, Lines("event: " + kind + "\nid: " + id + "\ndata: " + data + "\n\n" + rest, "")) ==
            Interpret(r.(id := id, dispatched := r.dispatched + [Message(kind, data, id)]), Lines(rest, ""))
  {
    hide Lines, Interpret, Lacks, OneLine, ProcessField, Dispatch;
    var r1, r2 := r.(kind := kind), r.(kind := kind, id := id);
    var r3 := r2.(data := data + "\n");
    var afterId := "data" + ": " + data + "\n" + ("\n" + rest);
    Regroup(kind, id, data, rest);
    FieldNamesArePlain();
    FieldEffects(r, kind, id, data);
    ReadField(r, "event", kind, "id" + ": " + id + "\n" + afterId);
    ReadField(r1, "id", id, afterId);
    ReadField(r2, "data", data, "\n" + rest);
    ReadBlank(r3, rest);
  }

  /** What the three fields and the blank line do to a reader at rest. */
  lemma FieldEffects(r: Reader, kind: string, id: string, data: string)
    requires AtRest(r) && kind != "" && Lacks(id, '\0')
    ensures ProcessField(r, "event", kind) == r.(kind := kind)
    ensures ProcessField(r.(kind := kind), "id", id) == r.(kind := kind, id := id)
    ensures var r3 := r.(kind := kind, id := id, data := data + "\n");
      && ProcessField(r.(kind := kind, id := id), "data", data) == r3
      && Dispatch(r3) == r.(id := id, dispatched := r.dispatched + [Message(kind, data, id)])
  {
    assert "" + data + "\n" == data + "\n";
    assert (data + "\n")[..|data|] == data;
  }

  lemma FieldNamesArePlain()
    ensures Lacks("event", ':') && Lacks("id", ':') && Lacks("data", ':') && Lacks("retry", ':')
    ensures OneLine("event") && OneLine("id") && OneLine("data") && OneLine("retry")
  {
  }

  lemma Regroup(kind: string, id: string, data: string, rest: string)
    ensures "event: " + kind + "\nid: " + id + "\ndata: " + data + "\n\n" + rest ==
            "event" + ": " + kind + "\n" + ("id" + ": " + id + "\n" + ("data" + ": " + data + "\n" + ("\n" + rest)))
  {
    assert "event: " == "event" + ": " && "\nid: " == "\n" + ("id" + ": ") && "\ndata: " == "\n" + ("data" + ": ");
    assert "\n\n" == "\n" + "\n";
  }

  lemma ReadEvent(r: Reader, e: RunEvent, rest: string)
    requires AtRest(r)
    ensures Interpret(r, Lines(EncodeSseEvent(e) + rest, "")) == Interpret(Received(r, Event(e)), Lines(rest, ""))
  {
    hide Lines, Interpret, Lacks, OneLine, Name, Write, Envelope, PublicRunEvent, Decimal;
    PublicKeepsSequence(e);
    var kind := Name(PublicRunEvent(e).kind);
    NameIsPlain(PublicRunEvent(e).kind);
    WriteIsOneLine(Envelope(PublicRunEvent(e)));
    DecimalIsOneLine(e.sequence);
    ReadLines(r, kind, Decimal(e.sequence), EventData(e), rest);
  }

  lemma PublicKeepsSequence(e: RunEvent)
    ensures PublicRunEvent(e).sequence == e.sequence
  {
  }

  lemma ReadHeartbeat(r: Reader, rest: string)
    requires AtRest(r)
    ensures Interpret(r, Lines(": heartbeat\n\n" + rest, "")) == Interpret(r, Lines(rest, ""))
  {
    assert ": heartbeat\n\n" + rest == ": heartbeat" + "\n" + ("\n" + rest);
    LineEnds(": heartbeat", "\n" + rest, "");
    assert "" + ": heartbeat" == ": heartbeat";
    var more := Lines("\n" + rest, "");
    assert ([": heartbeat"] + more)[1..] == more;
    ReadBlank(r, rest);
  }

  lemma ReadRetry(r: Reader, ms: nat, rest: string)
    requires AtRest(r)
    ensures Interpret(r, Lines("retry: " + Decimal(ms) + "\n\n" + rest, "")) ==
            Interpret(r.(retry := Some(ms)), Lines(rest, ""))
  {
    hide Lines, Interpret, Lacks, OneLine, Decimal, ReadDecimal;
    DecimalIsOneLine(ms);
    DecimalRoundTrip(ms);
    FieldNamesArePlain();
    RegroupRetry(Decimal(ms), rest);
    ReadField(r, "retry", Decimal(ms), "\n" + rest);
    ReadBlank(r.(retry := Some(ms)), rest);
  }

  lemma RegroupRetry(ms: string, rest: string)
    ensures "retry: " + ms + "\n\n" + rest == "retry" + ": " + ms + "\n" + ("\n" + rest)
  {
    assert "retry: " == "retry" + ": " && "\n\n" == "\n" + "\n";
  }

  lemma {:induction false} ReadBlocks(r: Reader, blocks: seq<Block>)
    requires AtRest(r)
    ensures Interpret(r, Lines(Print(blocks), "")) == ReceivedAll(r, blocks)
    decreases blocks
  {
    if blocks != [] {
      var rest := Print(blocks[1..]);
      match blocks[0]
      case Event(e) =>
        ReadEvent(r, e, rest);
        ReadBlocks(Received(r, blocks[0]), blocks[1..]);
      case Heartbeat =>
        ReadHeartbeat(r, rest);
        ReadBlocks(r, blocks[1..]);
      case Retry(ms) =>
        ReadRetry(r, ms, rest);
        ReadBlocks(Received(r, blocks[0]), blocks[1..]);
    }
  }

  function MessagesOf(events: seq<RunEvent>): seq<Message>
  {
    if events == [] then [] else [MessageOf(events[0])] + MessagesOf(events[1..])
  }

  lemma {:induction false} ReceivedMessages(r: Reader, blocks: seq<Block>)
    ensures ReceivedAll(r, blocks).dispatched == r.dispatched + MessagesOf(EventsOf(blocks))
    decreases blocks
  {
    if blocks != [] {
      hide Name, Write, Envelope, PublicRunEvent, Decimal, EventData;
      ReceivedMessages(Received(r, blocks[0]), blocks[1..]);
      var rest := EventsOf(blocks[1..]);
      if blocks[0].Event? {
        assert EventsOf(blocks)[1..] == rest;
      } else {
        assert EventsOf(blocks) == rest;
      }
    }
  }

  /**
   The message a consumer must be given for an event: its number as the last event id and, unless
   the event carries reasoning, its own type and its own JSON text; otherwise those of its
   public form.
   */
  ghost predicate Conveys(m: Message, e: RunEvent) {
    && IsDecimal(m.lastEventId) && ReadDecimal(m.lastEventId) == e.sequence
    && (!CarriesReasoning(e.kind) ==> m.kind == Name(e.kind) && m.data == Write(Envelope(e)))
    && (CarriesReasoning(e.kind) ==>
          m.kind == Name(PublicRunEvent(e).kind) && m.data == Write(Envelope(PublicRunEvent(e))))
  }

  /** The messages convey exactly these events, in order. */
  ghost predicate ConveyAll(messages: seq<Message>, events: seq<RunEvent>) {
    |messages| == |events| && forall i :: 0 <= i < |events| ==> Conveys(messages[i], events[i])
  }

  lemma MessageConveys(e: RunEvent)
    ensures Conveys(MessageOf(e), e)
  {
    hide Name, Write, Envelope, PublicRunEvent, Decimal, ReadDecimal;
    DecimalRoundTrip(e.sequence);
    OnlyReasoningChanges(e);
  }

  /** Reading any printed stream conveys exactly its events, in order. */
  lemma ReaderUndoesPrinter(blocks: seq<Block>)
    ensures ConveyAll(Read(Print(blocks)).dispatched, EventsOf(blocks))
  {
    hide Conveys, MessageOf;
    NoMarkInFront(blocks);
    ReadBlocks(NEW_READER, blocks);
    ReceivedMessages(NEW_READER, blocks);
    MessagesAt(EventsOf(blocks));
    assert [] + MessagesOf(EventsOf(blocks)) == MessagesOf(EventsOf(blocks));
  }

  /** The data of a message is read back, field by field, as the event's own, unless it carries reasoning. */
  lemma DataIsRead(m: Message, e: RunEvent)
    requires Conveys(m, e) && !CarriesReasoning(e.kind)
    ensures KindNamed(m.kind) == Some(e.kind)
    ensures var r := JsonReader.Parse(m.data);
      && r.Some? && Get(r.value, "id") == Some(Str(e.id)) && Get(r.value, "runId") == Some(Str(e.runId))
      && Get(r.value, "sequence") == Some(Int(e.sequence)) && Get(r.value, "type") == Some(Str(Name(e.kind)))
      && Get(r.value, "data") == Some(e.data) && Get(r.value, "createdAt") == Some(Str(e.createdAt))
      && Get(r.value, "schemaVersion") == Some(Int(1))
      && Get(r.value, "legId") == TextOf(e.legId) && Get(r.value, "channel") == TextOf(e.channel)
  {
    hide Name, Write, Envelope, JsonReader.Parse, Get;
    hide KindNamed;
    NamesAreRead(e.kind);
    JsonReader.ParseUndoesWrite(Envelope(e));
    EnvelopeLookup(e);
  }

  function TextOf(value: Option<string>): Option<Json> {
    if value.Some? then Some(Str(value.value)) else None
  }

  lemma LookupOptionalText(key: string, value: Option<string>, rest: seq<Field>, k: string)
    ensures Lookup(OptionalText(key, value) + rest, k) ==
            if k == key && value.Some? then Some(Str(value.value)) else Lookup(rest, k)
  {
    if value.Some? {
      assert (OptionalText(key, value) + rest)[1..] == rest;
    } else {
      assert OptionalText(key, value) + rest == rest;
    }
  }

  /** What the envelope says of an event, field by field. */
  lemma EnvelopeLookup(e: RunEvent)
    ensures var env := Envelope(e);
      && Get(env, "id") == Some(Str(e.id)) && Get(env, "runId") == Some(Str(e.runId))
      && Get(env, "sequence") == Some(Int(e.sequence)) && Get(env, "type") == Some(Str(Name(e.kind)))
      && Get(env, "data") == Some(e.data) && Get(env, "createdAt") == Some(Str(e.createdAt))
      && Get(env, "schemaVersion") == Some(Int(1))
      && Get(env, "legId") == TextOf(e.legId) && Get(env, "channel") == TextOf(e.channel)
  {
    hide Get, Envelope, Name;
    FirstFields(e, "schemaVersion");
    FirstFields(e, "legId");
    FirstFields(e, "channel");
    LastFields(e, "schemaVersion");
    LastFields(e, "legId");
    LastFields(e, "channel");
    LastVersion(e, "schemaVersion");
    LastVersion(e, "legId");
    LastVersion(e, "channel");
    FirstFields(e, "id");
    FirstFields(e, "runId");
    FirstFields(e, "sequence");
    FirstFields(e, "type");
    FirstFields(e, "data");
    FirstFields(e, "createdAt");
    LastFields(e, "type");
    LastFields(e, "data");
    LastFields(e, "createdAt");
  }

  function TailOf(e: RunEvent): seq<Field> {
    [Field("type", Str(Name(e.kind)))] + ([Field("data", e.data)] + ([Field("createdAt", Str(e.createdAt))]
      + (if e.versioned then [] else [Field("schemaVersion", Int(1))])))
  }

  lemma LastFields(e: RunEvent, k: string)
    ensures Lookup(TailOf(e), k) ==
            if k == "type" then Some(Str(Name(e.kind))) else if k == "data" then Some(e.data)
            else if k == "createdAt" then Some(Str(e.createdAt))
            else Lookup(if e.versioned then [] else [Field("schemaVersion", Int(1))], k)
  {
    hide Name;
    var version := if e.versioned then [] else [Field("schemaVersion", Int(1))];
    var created := [Field("createdAt", Str(e.createdAt))] + version;
    LookupFirst("createdAt", Str(e.createdAt), version, k);
    LookupFirst("data", e.data, created, k);
    LookupFirst("type", Str(Name(e.kind)), [Field("data", e.data)] + created, k);
  }

  lemma LastVersion(e: RunEvent, k: string)
    ensures Lookup(if e.versioned then [] else [Field("schemaVersion", Int(1))], k) ==
            if !e.versioned && k == "schemaVersion" then Some(Int(1)) else None
  {
    LookupFirst("schemaVersion", Int(1), [], k);
    assert [Field("schemaVersion", Int(1))] + [] == [Field("schemaVersion", Int(1))];
  }

  lemma FirstFields(e: RunEvent, k: string)
    ensures Get(Envelope(e), k) ==
            if k == "id" then Some(Str(e.id)) else if k == "runId" then Some(Str(e.runId))
            else if k == "sequence" then Some(Int(e.sequence))
            else if k == "schemaVersion" && e.versioned then Some(Int(1))
            else if k == "legId" && e.legId.Some? then TextOf(e.legId)
            else if k == "channel" && e.channel.Some? then TextOf(e.channel)
            else Lookup(TailOf(e), k)
  {
    var version := if e.versioned then [Field("schemaVersion", Int(1))] else [];
    var tail := TailOf(e);
    var channel := OptionalText("channel", e.channel) + tail;
    var leg := OptionalText("legId", e.legId) + channel;
    var versioned := version + leg;
    EnvelopeParts(e);
    hide Name, Envelope, TailOf, OptionalText;
    LookupOptionalText("channel", e.channel, tail, k);
    LookupOptionalText("legId", e.legId, channel, k);
    LookupOptional("schemaVersion", if e.versioned then Some(Int(1)) else None, leg, k);
    LookupFirst("sequence", Int(e.sequence), versioned, k);
    LookupFirst("runId", Str(e.runId), [Field("sequence", Int(e.sequence))] + versioned, k);
    LookupFirst("id", Str(e.id), [Field("runId", Str(e.runId))] + ([Field("sequence", Int(e.sequence))] + versioned),
        k);
  }

  lemma EnvelopeParts(e: RunEvent)
    ensures Envelope(e) ==
            Obj([Field("id", Str(e.id))] + ([Field("runId", Str(e.runId))] + ([Field("sequence", Int(e.sequence))]
                + ((if e.versioned then [Field("schemaVersion", Int(1))] else [])
                   + (OptionalText("legId", e.legId) + (OptionalText("channel", e.channel) + TailOf(e)))))))
  {
    hide Name, OptionalText;
  }

  /** What a message carries determines the public event's identity, number, type and data. */
  lemma DataDeterminesEvent(e: RunEvent, f: RunEvent)
    requires EventData(e) == EventData(f)
    ensures var p, q := PublicRunEvent(e), PublicRunEvent(f);
      && p.id == q.id && p.runId == q.runId && p.sequence == q.sequence && Name(p.kind) == Name(q.kind)
      && p.data == q.data && p.createdAt == q.createdAt
  {
    hide PublicRunEvent, Name, Envelope, Write, Get;
    JsonReader.TextDeterminesValue(Envelope(PublicRunEvent(e)), Envelope(PublicRunEvent(f)));
    EnvelopeLookup(PublicRunEvent(e));
    EnvelopeLookup(PublicRunEvent(f));
  }

  lemma {:induction false} MessagesAt(events: seq<RunEvent>)
    ensures |MessagesOf(events)| == |events|
    ensures forall i :: 0 <= i < |events| ==>
              MessagesOf(events)[i] == MessageOf(events[i]) && Conveys(MessagesOf(events)[i], events[i])
  {
    hide Conveys, MessageOf;
    if events != [] {
      MessagesAt(events[1..]);
      MessageConveys(events[0]);
    }
  }

  /** No printed stream starts with a byte order mark. */
  lemma NoMarkInFront(blocks: seq<Block>)
    ensures Print(blocks) != "" ==> Print(blocks)[0] != BOM
  {
  }

  /** The last retry hint of a stream is the reader's reconnection time. */
  lemma {:induction false} RetryIsHeard(r: Reader, blocks: seq<Block>, ms: nat)
    requires AtRest(r)
    requires forall i :: 0 <= i < |blocks| ==> !blocks[i].Retry?
    ensures var all := [Retry(ms)] + blocks;
      Interpret(r, Lines(Print(all), "")).retry == Some(ms)
  {
    var all := [Retry(ms)] + blocks;
    assert all[1..] == blocks;
    ReadBlocks(r, all);
    RetryStays(Received(r, all[0]), blocks);
  }

  lemma {:induction false} RetryStays(r: Reader, blocks: seq<Block>)
    requires forall i :: 0 <= i < |blocks| ==> !blocks[i].Retry?
    ensures ReceivedAll(r, blocks).retry == r.retry
    decreases blocks
  {
    if blocks != [] {
      RetryStays(Received(r, blocks[0]), blocks[1..]);
    }
  }
}
