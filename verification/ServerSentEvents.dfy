/** The EventStream frame printer, and the parser of the HTML Standard (sections 9.2.5 and 9.2.6)
    that a client reads its output with. */
module ServerSentEvents {
  import opened Slices

  // ---------------------------------------------------------------- printing

  function Lower(s: string): (r: string)
    ensures |r| == |s|
    ensures forall i | 0 <= i < |s| :: r[i] == (if 'A' <= s[i] <= 'Z' then s[i] - 'A' + 'a' else s[i])
  {
    seq(|s|, i requires 0 <= i < |s| => if 'A' <= s[i] <= 'Z' then s[i] - 'A' + 'a' else s[i])
  }

  function Digit(d: nat): char
    requires d < 10
  {
    '0' + d as char
  }

  function Decimal(n: nat): (s: string)
    ensures s != []
    ensures forall i | 0 <= i < |s| :: '0' <= s[i] <= '9'
  {
    if n < 10 then [Digit(n)] else Decimal(n / 10) + [Digit(n % 10)]
  }

  /** What a message supplies: the opcode's name and the marshalled data. */
  datatype Message = Message(op: string, data: string)

  function Frame(m: Message, number: nat): string {
    "event: " + Lower(m.op) + "\ndata: " + m.data + "\nid: " + Decimal(number) + "\n\n"
  }

  // ---------------------------------------------------------------- parsing, from the standard

  datatype Event = Event(name: string, data: string, lastId: string)

  /** The data, event type and last event ID buffers. */
  datatype Buffers = Buffers(data: string, name: string, id: string)

  const FRESH := Buffers("", "", "")

  /** Position of the first line terminator character from i on, or the length. */
  function LineEndFrom(s: string, i: nat): (n: nat)
    requires i <= |s|
    ensures i <= n <= |s|
    ensures forall j | i <= j < n :: s[j] != '\n' && s[j] != '\r'
    ensures n < |s| ==> s[n] == '\n' || s[n] == '\r'
    decreases |s| - i
  {
    if i == |s| || s[i] == '\n' || s[i] == '\r' then i else LineEndFrom(s, i + 1)
  }

  function LineEnd(s: string): nat {
    LineEndFrom(s, 0)
  }

  /** Everything after the terminator at i; CR LF counts as one. */
  function AfterLine(s: string, i: nat): string
    requires i < |s|
  {
    if s[i] == '\r' && i + 1 < |s| && s[i + 1] == '\n' then s[i + 2..] else s[i + 1..]
  }

  function FieldValue(line: string, colon: nat): string
    requires colon < |line|
  {
    if colon + 1 < |line| && line[colon + 1] == ' ' then line[colon + 2..] else line[colon + 1..]
  }

  function ProcessField(b: Buffers, field: string, value: string): Buffers {
    if field == "event" then b.(name := value)
    else if field == "data" then b.(data := b.data + value + "\n")
    else if field == "id" then (if '\0' in value then b else b.(id := value))
    else b  // "retry" sets the reconnection time only; other fields are ignored
  }

  /** A line that is not empty. */
  function ProcessLine(b: Buffers, line: string): Buffers
    requires line != []
  {
    var colon := Find(line, ':');
    if colon == 0 then b
    else if colon < |line| then ProcessField(b, line[..colon], FieldValue(line, colon))
    else ProcessField(b, line, "")
  }

  /** An empty line: dispatch, unless no data came. */
  function DispatchEvent(b: Buffers): seq<Event> {
    if b.data == "" then []
    else
      var data := if b.data[|b.data| - 1] == '\n' then b.data[..|b.data| - 1] else b.data;
      [Event(if b.name == "" then "message" else b.name, data, b.id)]
  }

  /** Reads line by line. What the end of the file leaves pending is discarded. */
  function Interpret(s: string, b: Buffers): seq<Event>
    decreases |s|
  {
    var i := LineEnd(s);
    if i == |s| then []
    else if i == 0 then DispatchEvent(b) + Interpret(AfterLine(s, i), Buffers("", "", b.id))
    else Interpret(AfterLine(s, i), ProcessLine(b, s[..i]))
  }

  /** A whole stream, without its byte order mark if it has one. */
  function Parse(s: string): seq<Event> {
    Interpret(if s != [] && s[0] == '\U{FEFF}' then s[1..] else s, FRESH)
  }

  // ---------------------------------------------------------------- the stream object

  /** How a write ends: delivered in full, given up because the data cannot be marshalled, or cut
      off by an error after some bytes, at most the whole frame. The buffered writer keeps an error:
      nothing more is sent after one. */
  datatype Outcome = Delivered | Unmarshalled | Cut(sent: nat)

  datatype Attempt = Attempt(message: Message, outcome: Outcome)

  datatype Stream = Stream(out: string, number: nat, broken: bool)

  /** The first n bytes, or all. */
  function Start(s: string, n: nat): string {
    if n < |s| then s[..n] else s
  }

  function Sent(st: Stream, a: Attempt): Stream {
    var f := Frame(a.message, st.number);
    if st.broken || a.outcome.Unmarshalled? then st
    else if a.outcome.Cut? then Stream(st.out + Start(f, a.outcome.sent), st.number, true)
    else Stream(st.out + f, st.number + 1, false)
  }

  function SentAll(attempts: seq<Attempt>): Stream {
    if attempts == [] then Stream("", 0, false) else Sent(SentAll(attempts[..|attempts| - 1]), attempts[|attempts| - 1])
  }

  class EventStream {
    var hasWriter: bool
    var out: string
    var number: nat
    var broken: bool

    constructor ()
      ensures View() == Stream("", 0, false) && !hasWriter
    {
      hasWriter, out, number, broken := false, "", 0, false;
    }

    function View(): Stream
      reads this
    {
      Stream(out, number, broken)
    }

    method SetWriter()
      modifies this`hasWriter
      ensures hasWriter
    {
      hasWriter := true;
    }

    /** False stands for the error return. */
    method Write(m: Message, outcome: Outcome) returns (ok: bool)
      modifies this`out, this`number, this`broken
      ensures View() == if hasWriter then Sent(old(View()), Attempt(m, outcome)) else old(View())
      ensures ok <==> number == old(number) + 1
      ensures old(out) <= out
      ensures hasWriter && !old(broken) && outcome.Cut? ==>
        |out| - |old(out)| == |Start(Frame(m, old(number)), outcome.sent)|
    {
      if !hasWriter {
        return false;
      }
      if outcome.Unmarshalled? {
        return false;
      }
      var sb := "event: " + Lower(m.op) + "\ndata: ";
      sb := sb + m.data;
      sb := sb + "\nid: " + Decimal(number);
      sb := sb + "\n\n";
      assert sb == Frame(m, number);
      if broken {
        return false;
      }
      if outcome.Cut? {
        out := out + Start(sb, outcome.sent);
        broken := true;
        return false;
      }
      out := out + sb;
      number := number + 1;
      return true;
    }
  }

  // ---------------------------------------------------------------- lines

  predicate OneLine(s: string) {
    forall i | 0 <= i < |s| :: s[i] != '\n' && s[i] != '\r'
  }

  lemma {:induction false} FirstLine(line: string, rest: string)
    requires OneLine(line)
    ensures LineEnd(line + "\n" + rest) == |line|
    ensures AfterLine(line + "\n" + rest, |line|) == rest
    ensures (line + "\n" + rest)[..|line|] == line
  {
    var s := line + "\n" + rest;
    assert s[|line|] == '\n';
    assert forall j | 0 <= j < |line| :: s[j] == line[j];
    assert s[|line| + 1..] == rest;
  }

  /** A field line with a name free of colons is read as that field. */
  lemma {:induction false} FieldLine(b: Buffers, field: string, value: string)
    requires field != "" && ':' !in field
    ensures ProcessLine(b, field + ": " + value) == ProcessField(b, field, value)
  {
    var line := field + ": " + value;
    assert line[|field|] == ':' && line[|field| + 1] == ' ';
    assert forall j | 0 <= j < |field| :: line[j] == field[j];
    assert Find(line, ':') == |field|;
    assert line[..|field|] == field && line[|field| + 2..] == value;
  }

  /** A field line in front of some text. */
  function Line(field: string, value: string, rest: string): string {
    field + (": " + (value + ("\n" + rest)))
  }

  lemma {:induction false} InterpretField(b: Buffers, field: string, value: string, rest: string)
    requires field != "" && ':' !in field && OneLine(field) && OneLine(value)
    ensures Interpret(Line(field, value, rest), b) == Interpret(rest, ProcessField(b, field, value))
  {
    var line := field + ": " + value;
    assert Line(field, value, rest) == line + "\n" + rest;
    FirstLine(line, rest);
    FieldLine(b, field, value);
  }

  lemma {:induction false} Assoc(a: string, b: string, c: string)
    ensures (a + b) + c == a + (b + c)
  {
  }

  lemma {:induction false} Regroup(e: string, l: string, d: string, v: string, i: string, n: string, z: string,
                                   rest: string)
    ensures e + l + d + v + i + n + z + rest == e + (l + (d + (v + (i + (n + (z + rest))))))
  {
    Assoc(e + l + d + v + i + n, z, rest);
    Assoc(e + l + d + v + i, n, z + rest);
    Assoc(e + l + d + v, i, n + (z + rest));
    Assoc(e + l + d, v, i + (n + (z + rest)));
    Assoc(e + l, d, v + (i + (n + (z + rest))));
    Assoc(e, l, d + (v + (i + (n + (z + rest)))));
  }

  /** A newline and a field label, split off the text they start. */
  lemma {:induction false} Label(start: string, field: string, rest: string)
    requires start == "\n" + (field + ": ")
    ensures start + rest == "\n" + (field + (": " + rest))
  {
    Assoc("\n", field + ": ", rest);
    Assoc(field, ": ", rest);
  }

  lemma {:induction false} FrameLines(m: Message, number: nat, rest: string)
    ensures Frame(m, number) + rest
      == Line("event", Lower(m.op), Line("data", m.data, Line("id", Decimal(number), "\n" + rest)))
  {
    var l, v, n := Lower(m.op), m.data, Decimal(number);
    Regroup("event: ", l, "\ndata: ", v, "\nid: ", n, "\n\n", rest);
    Assoc("\n", "\n", rest);
    assert "\n" + "\n" == "\n\n";
    assert "event" + ": " == "event: " && "\n" + ("data" + ": ") == "\ndata: " && "\n" + ("id" + ": ") == "\nid: ";
    Label("\nid: ", "id", n + ("\n\n" + rest));
    Label("\ndata: ", "data", v + ("\nid: " + (n + ("\n\n" + rest))));
    Assoc("event", ": ", l + ("\ndata: " + (v + ("\nid: " + (n + ("\n\n" + rest))))));
  }

  // ---------------------------------------------------------------- one frame

  predicate Printable(m: Message) {
    m.op != "" && OneLine(m.op) && OneLine(m.data)
  }

  function EventOf(m: Message, number: nat): Event {
    Event(Lower(m.op), m.data, Decimal(number))
  }

  /** A frame in front of anything is read as its one event, and leaves the buffers as a fresh
      block does, but for the last id. */
  lemma {:induction false} FrameReadsBack(m: Message, number: nat, rest: string, id: string)
    requires Printable(m)
    ensures Interpret(Frame(m, number) + rest, Buffers("", "", id))
      == [EventOf(m, number)] + Interpret(rest, Buffers("", "", Decimal(number)))
  {
    FrameLines(m, number, rest);
    BlockReads(Buffers("", "", id), Lower(m.op), m.data, Decimal(number), rest);
    BlockFields(Buffers("", "", id), Lower(m.op), m.data, Decimal(number));
  }

  /** The buffers after the three fields of a frame. */
  function BlockBuffers(b: Buffers, name: string, data: string, number: string): Buffers {
    ProcessField(ProcessField(ProcessField(b, "event", name), "data", data), "id", number)
  }

  lemma {:induction false} FieldsRead(b: Buffers, name: string, data: string, number: string, tail: string)
    requires OneLine(name) && OneLine(data) && OneLine(number)
    ensures Interpret(Line("event", name, Line("data", data, Line("id", number, tail))), b)
      == Interpret(tail, BlockBuffers(b, name, data, number))
  {
    var third := Line("id", number, tail);
    var second := Line("data", data, third);
    var b1 := ProcessField(b, "event", name);
    InterpretField(b, "event", name, second);
    InterpretField(b1, "data", data, third);
    InterpretField(ProcessField(b1, "data", data), "id", number, tail);
  }

  lemma {:induction false} BlockReads(b: Buffers, name: string, data: string, number: string, rest: string)
    requires OneLine(name) && OneLine(data) && OneLine(number)
    ensures Interpret(Line("event", name, Line("data", data, Line("id", number, "\n" + rest))), b)
      == DispatchEvent(BlockBuffers(b, name, data, number))
         + Interpret(rest, Buffers("", "", BlockBuffers(b, name, data, number).id))
  {
    FieldsRead(b, name, data, number, "\n" + rest);
    BlankLine(BlockBuffers(b, name, data, number), rest);
  }

  lemma {:induction false} BlockFields(b: Buffers, name: string, data: string, number: string)
    requires b.data == "" && name != "" && '\0' !in number
    ensures BlockBuffers(b, name, data, number) == Buffers(data + "\n", name, number)
    ensures DispatchEvent(BlockBuffers(b, name, data, number)) == [Event(name, data, number)]
  {
    assert "" + data + "\n" == data + "\n";
    assert (data + "\n")[..|data|] == data;
  }

  lemma {:induction false} BlankLine(b: Buffers, rest: string)
    ensures Interpret("\n" + rest, b) == DispatchEvent(b) + Interpret(rest, Buffers("", "", b.id))
  {
    assert "" + "\n" + rest == "\n" + rest;
    FirstLine("", rest);
  }

  // ---------------------------------------------------------------- a frame cut short

  /** Text in which no line is empty. */
  predicate NoEmptyLine(s: string) {
    && (s != [] ==> s[0] != '\n')
    && (forall i | 0 <= i < |s| :: s[i] != '\r')
    && (forall i | 0 <= i < |s| - 1 :: s[i] == '\n' ==> s[i + 1] != '\n')
  }

  lemma {:induction false} NoEmptyLineNoEvent(s: string, b: Buffers)
    requires NoEmptyLine(s)
    ensures Interpret(s, b) == []
    decreases |s|
  {
    var i := LineEnd(s);
    if i < |s| {
      RestHasNoEmptyLine(s, i);
      NoEmptyLineNoEvent(s[i + 1..], ProcessLine(b, s[..i]));
      InterpretLine(s, b, i);
    }
  }

  lemma {:induction false} InterpretLine(s: string, b: Buffers, i: nat)
    requires LineEnd(s) == i && 0 < i < |s| && s[i] == '\n'
    ensures Interpret(s, b) == Interpret(s[i + 1..], ProcessLine(b, s[..i]))
  {
  }

  lemma {:induction false} RestHasNoEmptyLine(s: string, i: nat)
    requires NoEmptyLine(s) && i < |s| && s[i] == '\n'
    ensures NoEmptyLine(s[i + 1..])
  {
    var r := s[i + 1..];
    assert forall j | 0 <= j < |r| :: r[j] == s[i + 1 + j];
  }

  /** Among three lines and an empty one, no line is empty but the last. */
  lemma {:induction false} LineChars(l1: string, l2: string, l3: string, i: nat)
    requires OneLine(l1) && OneLine(l2) && OneLine(l3) && l1 != "" && l2 != "" && l3 != ""
    requires i < |l1 + "\n" + l2 + "\n" + l3 + "\n\n"|
    ensures var f := l1 + "\n" + l2 + "\n" + l3 + "\n\n";
      && f[0] == l1[0] && f[i] != '\r'
      && (f[i] == '\n' && i + 2 < |f| ==> f[i + 1] != '\n')
  {
    var f := l1 + "\n" + l2 + "\n" + l3 + "\n\n";
    var a, c := |l1| + 1, |l1| + |l2| + 2;
    if i < |l1| {
      assert f[i] == l1[i];
    } else if i == |l1| {
      assert f[a] == l2[0];
    } else if i < a + |l2| {
      assert f[i] == l2[i - a];
    } else if i == a + |l2| {
      assert f[c] == l3[0];
    } else if i < c + |l3| {
      assert f[i] == l3[i - c];
    }
  }

  lemma {:induction false} FrameChars(m: Message, number: nat, i: nat)
    requires Printable(m) && i < |Frame(m, number)|
    ensures Frame(m, number)[0] == 'e' && Frame(m, number)[i] != '\r'
    ensures Frame(m, number)[i] == '\n' && i + 2 < |Frame(m, number)| ==> Frame(m, number)[i + 1] != '\n'
  {
    var l1, l2, l3 := "event: " + Lower(m.op), "data: " + m.data, "id: " + Decimal(number);
    assert l1 + "\n" + l2 + "\n" + l3 + "\n\n" == Frame(m, number);
    LineChars(l1, l2, l3, i);
  }

  /** A frame cut short anywhere has no empty line. */
  lemma {:induction false} CutFrame(m: Message, number: nat, n: nat)
    requires Printable(m) && n < |Frame(m, number)|
    ensures NoEmptyLine(Frame(m, number)[..n])
    ensures n > 0 ==> Frame(m, number)[..n][0] == 'e'
  {
    var p := Frame(m, number)[..n];
    if n > 0 {
      FrameChars(m, number, 0);
    }
    forall i | 0 <= i < n
      ensures p[i] != '\r'
      ensures p[i] == '\n' && i + 1 < n ==> p[i + 1] != '\n'
    {
      FrameChars(m, number, i);
    }
  }

  // ---------------------------------------------------------------- the whole stream

  /** Every byte of the frame goes out, whether or not an error is reported after the last one. */
  predicate Whole(st: Stream, a: Attempt) {
    !st.broken && (a.outcome.Delivered? || (a.outcome.Cut? && a.outcome.sent >= |Frame(a.message, st.number)|))
  }

  /** The messages whose frames went out whole. */
  function Through(attempts: seq<Attempt>): seq<Message> {
    if attempts == [] then [] else
      var before, a := attempts[..|attempts| - 1], attempts[|attempts| - 1];
      Through(before) + (if Whole(SentAll(before), a) then [a.message] else [])
  }

  function Numbered(ms: seq<Message>): seq<Event> {
    seq(|ms|, i requires 0 <= i < |ms| => EventOf(ms[i], i))
  }

  /** The text of the first n frames. */
  function Frames(ms: seq<Message>, n: nat): string
    requires n <= |ms|
  {
    if n == 0 then "" else Frames(ms, n - 1) + Frame(ms[n - 1], n - 1)
  }

  function LastId(n: nat): string {
    if n == 0 then "" else Decimal(n - 1)
  }

  /** The first n frames in front of anything are read as the first n events. */
  lemma {:induction false} FramesReadBack(ms: seq<Message>, n: nat, rest: string)
    requires n <= |ms| && forall m | m in ms :: Printable(m)
    ensures Interpret(Frames(ms, n) + rest, FRESH) == Numbered(ms)[..n] + Interpret(rest, Buffers("", "", LastId(n)))
    decreases n
  {
    if n == 0 {
      assert "" + rest == rest;
    } else {
      var m := ms[n - 1];
      FramesReadBack(ms, n - 1, Frame(m, n - 1) + rest);
      Assoc(Frames(ms, n - 1), Frame(m, n - 1), rest);
      FrameReadsBack(m, n - 1, rest, LastId(n - 1));
      TakeOne(Numbered(ms), n - 1);
      Compose(Interpret(Frames(ms, n) + rest, FRESH), Interpret(Frame(m, n - 1) + rest, Buffers("", "", LastId(n - 1))),
              Interpret(rest, Buffers("", "", LastId(n))), Numbered(ms)[..n - 1], EventOf(m, n - 1));
    }
  }

  lemma {:induction false} TakeOne(events: seq<Event>, n: nat)
    requires n < |events|
    ensures events[..n + 1] == events[..n] + [events[n]]
  {
  }

  lemma {:induction false} Compose(all: seq<Event>, middle: seq<Event>, end: seq<Event>, a: seq<Event>, e: Event)
    requires all == a + middle && middle == [e] + end
    ensures all == (a + [e]) + end
  {
  }

  /** The bytes on the wire: full frames numbered from 0, then at most a piece of one. */
  lemma {:induction false} WireShape(attempts: seq<Attempt>) returns (piece: string)
    requires forall a | a in attempts :: Printable(a.message)
    ensures SentAll(attempts).out == Frames(Through(attempts), |Through(attempts)|) + piece
    ensures Counted(SentAll(attempts), |Through(attempts)|)
    ensures NoEmptyLine(piece) && (piece != "" ==> piece[0] == 'e')
    ensures !SentAll(attempts).broken ==> piece == ""
    ensures forall m | m in Through(attempts) :: Printable(m)
  {
    piece := "";
    if attempts != [] {
      var before, a := attempts[..|attempts| - 1], attempts[|attempts| - 1];
      assert a in attempts && forall x | x in before :: x in attempts;
      piece := WireShape(before);
      var st := SentAll(before);
      if !st.broken && !a.outcome.Unmarshalled? {
        piece := WriteShape(st, Through(before), a);
      } else {
        assert Through(before) + [] == Through(before);
      }
    }
  }

  /** The frame number is how many frames went out whole, or one less after an error. */
  predicate Counted(st: Stream, n: nat) {
    if st.broken then st.number <= n <= st.number + 1 else n == st.number
  }

  /** One write onto a stream of whole frames. */
  lemma {:induction false} WriteShape(st: Stream, ms: seq<Message>, a: Attempt) returns (piece: string)
    requires st.out == Frames(ms, |ms|) + "" && st.number == |ms| && !st.broken
    requires Printable(a.message) && !a.outcome.Unmarshalled?
    ensures var all := ms + if Whole(st, a) then [a.message] else [];
      Sent(st, a).out == Frames(all, |all|) + piece && Counted(Sent(st, a), |all|)
    ensures NoEmptyLine(piece) && (piece != "" ==> piece[0] == 'e')
    ensures !Sent(st, a).broken ==> piece == ""
  {
    var f := Frame(a.message, st.number);
    assert st.out == Frames(ms, |ms|);
    if Whole(st, a) {
      piece := "";
      FramesPrefix(ms, ms + [a.message], |ms|);
      assert Sent(st, a).out == Frames(ms + [a.message], |ms| + 1);
      assert Sent(st, a).out + "" == Sent(st, a).out;
    } else {
      piece := f[..a.outcome.sent];
      CutFrame(a.message, st.number, a.outcome.sent);
      assert ms + [] == ms;
    }
  }

  lemma {:induction false} FramesPrefix(ms: seq<Message>, longer: seq<Message>, n: nat)
    requires n <= |ms| && ms <= longer
    ensures Frames(longer, n) == Frames(ms, n)
  {
    if n > 0 {
      FramesPrefix(ms, longer, n - 1);
    }
  }

  /** Whatever is written, whatever cannot be marshalled and wherever an error cuts the stream, a
      client following the standard reads exactly the messages whose frames went out whole, in
      order, with ids 0, 1, ..., n - 1. These are the writes that reported success, but for at most
      one whose error came after its last byte. */
  lemma {:induction false} StreamReadsBack(attempts: seq<Attempt>)
    requires forall a | a in attempts :: Printable(a.message)
    ensures Parse(SentAll(attempts).out) == Numbered(Through(attempts))
    ensures Counted(SentAll(attempts), |Through(attempts)|)
  {
    var piece := WireShape(attempts);
    PieceIsDropped(Through(attempts), piece);
  }

  /** Whole frames are read, the piece of one after them is not. */
  lemma {:induction false} PieceIsDropped(ms: seq<Message>, piece: string)
    requires (forall m | m in ms :: Printable(m)) && NoEmptyLine(piece) && (piece != "" ==> piece[0] == 'e')
    ensures Parse(Frames(ms, |ms|) + piece) == Numbered(ms)
  {
    FramesReadBack(ms, |ms|, piece);
    NoEmptyLineNoEvent(piece, Buffers("", "", LastId(|ms|)));
    StartsPlainly(ms, |ms|);
    ParsePlain(Frames(ms, |ms|) + piece);
    assert Numbered(ms)[..|ms|] + [] == Numbered(ms);
  }

  lemma {:induction false} ParsePlain(s: string)
    requires s != "" ==> s[0] == 'e'
    ensures Parse(s) == Interpret(s, FRESH)
  {
  }

  /** No byte order mark is printed. */
  lemma {:induction false} StartsPlainly(ms: seq<Message>, n: nat)
    requires n <= |ms|
    ensures Frames(ms, n) != "" ==> Frames(ms, n)[0] == 'e'
  {
    if n > 0 {
      StartsPlainly(ms, n - 1);
    }
  }

  // ---------------------------------------------------------------- ids

  function DecimalValue(s: string): nat
    requires forall i | 0 <= i < |s| :: '0' <= s[i] <= '9'
  {
    if s == [] then 0 else 10 * DecimalValue(s[..|s| - 1]) + (s[|s| - 1] - '0') as nat
  }

  /** The printed id is the decimal numeral of the frame's number, so ids never repeat. */
  lemma {:induction false} DecimalReadsBack(n: nat)
    ensures DecimalValue(Decimal(n)) == n
  {
    if n < 10 {
      assert [Digit(n)][..0] == [];
      assert DecimalValue([Digit(n)][..0]) == 0;
    } else {
      DecimalReadsBack(n / 10);
      assert Decimal(n)[..|Decimal(n)| - 1] == Decimal(n / 10);
    }
  }
}
