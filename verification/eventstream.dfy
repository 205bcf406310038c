/** The server-sent events wire format: the frames the server writes, and the
    reading side as section 9.2.6 of the WHATWG HTML Living Standard
    ("Interpreting an event stream") describes it, for streams whose lines
    end in LF. The round-trip lemma shows that a browser reading the frames
    dispatches exactly the server's events, in order. */
module EventStream {
  import opened Values
  import opened Text

  /** What the server writes on a stream: a named event whose data is the
      serialised payload, or a comment (the keep-alive ping). */
  datatype Message = Event(name: string, payload: Json) | Comment(text: string)

  /** An event as the reading side dispatches it. */
  datatype Dispatched = Dispatched(name: string, data: string)

  /** The text of one frame; `stringify` stands for `JSON.stringify`. */
  function Frame(m: Message, stringify: Json -> string): string {
    match m
    case Event(name, payload) => "event: " + name + "\n" + "data: " + stringify(payload) + "\n\n"
    case Comment(text) => ": " + text + "\n\n"
  }

  /** The text of successive frames. */
  function Wire(ms: seq<Message>, stringify: Json -> string): string
    decreases |ms|
  {
    if ms == [] then "" else Frame(ms[0], stringify) + Wire(ms[1..], stringify)
  }

  /** The event a message means to deliver, if any. */
  function EventOf(m: Message, stringify: Json -> string): seq<Dispatched> {
    if m.Event? then [Dispatched(m.name, stringify(m.payload))] else []
  }

  /** The events among the messages, as the server means them. */
  function Events(ms: seq<Message>, stringify: Json -> string): seq<Dispatched>
    decreases |ms|
  {
    if ms == [] then [] else EventOf(ms[0], stringify) + Events(ms[1..], stringify)
  }

  /** The reader's state: the line being read, the event type buffer, the
      data buffer and the events dispatched so far. */
  datatype Reader = Reader(line: string, eventType: string, data: string, out: seq<Dispatched>)

  const Fresh: Reader := Reader("", "", "", [])

  /** The value of a field: the text after the first colon, without one
      leading space. */
  function FieldValue(rest: string): string {
    if rest != [] && rest[0] == ' ' then rest[1..] else rest
  }

  /** Processes a complete line. An empty line dispatches the pending event
      (named "message" when no type was given) if the data buffer is not
      empty, dropping the data's last LF, and resets the buffers; a line
      starting with a colon is a comment; "event" sets the type, "data"
      appends its value and an LF; other fields are ignored. */
  function EndLine(r: Reader): Reader {
    var line := r.line;
    if line == "" then
      if r.data == "" then Reader("", "", "", r.out)
      else
        var name := if r.eventType == "" then "message" else r.eventType;
        Reader("", "", "", r.out + [Dispatched(name, r.data[..|r.data| - 1])])
    else if line[0] == ':' then r.(line := "")
    else
      var field := if ':' in line then line[..IndexOf(line, ':')] else line;
      var value := if ':' in line then FieldValue(line[IndexOf(line, ':') + 1..]) else "";
      if field == "event" then r.(line := "", eventType := value)
      else if field == "data" then r.(line := "", data := r.data + value + "\n")
      else r.(line := "")
  }

  /** Reads one character. */
  function Step(r: Reader, c: char): Reader {
    if c == '\n' then EndLine(r) else r.(line := r.line + [c])
  }

  /** Reads a text. */
  function Feed(r: Reader, s: string): Reader
    decreases |s|
  {
    if s == [] then r else Feed(Step(r, s[0]), s[1..])
  }

  /** The events a reader dispatches on a whole stream. */
  function Interpret(s: string): seq<Dispatched> {
    Feed(Fresh, s).out
  }

  lemma {:induction false} FeedAppend(r: Reader, a: string, b: string)
    ensures Feed(r, a + b) == Feed(Feed(r, a), b)
    decreases |a|
  {
    if a == [] {
      assert a + b == b;
    } else {
      assert (a + b)[0] == a[0];
      assert (a + b)[1..] == a[1..] + b;
      FeedAppend(Step(r, a[0]), a[1..], b);
    }
  }

  /** Reading a line and its LF processes that line. */
  lemma {:induction false} FeedLine(r: Reader, line: string)
    requires '\n' !in line
    ensures Feed(r, line + "\n") == EndLine(r.(line := r.line + line))
    decreases |line|
  {
    if line == [] {
      assert line + "\n" == "\n";
      assert r.(line := r.line + line) == r;
    } else {
      assert (line + "\n")[0] == line[0];
      assert (line + "\n")[1..] == line[1..] + "\n";
      assert line[1..] + "\n" == (line + "\n")[1..];
      FeedLine(r.(line := r.line + [line[0]]), line[1..]);
      assert r.line + [line[0]] + line[1..] == r.line + line;
    }
  }

  /** A field line `prefix + value` whose name has no colon. */
  lemma FieldLine(name: string, value: string)
    requires ':' !in name
    ensures var line := name + ": " + value;
      ':' in line && line[..IndexOf(line, ':')] == name && FieldValue(line[IndexOf(line, ':') + 1..]) == value
  {
    var line := name + ": " + value;
    assert line == name + (": " + value);
    IndexOfAppend(name, ": " + value, ':');
    assert line[|name| + 1..] == " " + value;
  }

  /** A reader between frames. */
  predicate Idle(r: Reader) {
    r.line == "" && r.eventType == "" && r.data == ""
  }

  /** A field line read at the start of a line: `event` sets the event
      type, `data` appends its value and an LF to the data buffer. */
  lemma FieldLineRead(r: Reader, field: string, value: string)
    requires r.line == "" && field != "" && field[0] != ':'
    requires ':' !in field && '\n' !in field && '\n' !in value
    ensures field == "event" ==> Feed(r, field + ": " + value + "\n") == r.(eventType := value)
    ensures field == "data" ==> Feed(r, field + ": " + value + "\n") == r.(data := r.data + value + "\n")
  {
    var l := field + ": " + value;
    assert '\n' !in l by {
      assert l == field + ([':', ' '] + value);
    }
    FeedLine(r, l);
    assert r.line + l == l;
    FieldLine(field, value);
    assert l[0] == field[0];
  }

  /** An `event` line at the start of a line sets the event type. */
  lemma EventLine(r: Reader, name: string)
    requires r.line == "" && '\n' !in name
    ensures Feed(r, "event: " + name + "\n") == r.(eventType := name)
  {
    var field := "event";
    assert ':' !in field && '\n' !in field && field[0] != ':';
    assert "event: " + name == field + ": " + name;
    FieldLineRead(r, field, name);
  }

  /** A `data` line at the start of a line appends its value and an LF to
      the data buffer. */
  lemma DataLine(r: Reader, data: string)
    requires r.line == "" && '\n' !in data
    ensures Feed(r, "data: " + data + "\n") == r.(data := r.data + data + "\n")
  {
    var field := "data";
    assert ':' !in field && '\n' !in field && field[0] != ':';
    assert "data: " + data == field + ": " + data;
    FieldLineRead(r, field, data);
  }

  /** A comment line changes nothing. */
  lemma CommentLine(r: Reader, text: string)
    requires r.line == "" && '\n' !in text
    ensures Feed(r, ": " + text + "\n") == r
  {
    FeedLine(r, ": " + text);
  }

  /** An empty line dispatches a pending event. */
  lemma BlankLine(r: Reader)
    requires r.line == "" && r.data != ""
    ensures Feed(r, "\n") == Reader("", "", "", r.out + [Dispatched(
      if r.eventType == "" then "message" else r.eventType, r.data[..|r.data| - 1])])
  {
    FeedLine(r, "");
  }

  /** An empty line with nothing pending only resets the buffers. */
  lemma BlankLineIdle(r: Reader)
    requires Idle(r)
    ensures Feed(r, "\n") == r
  {
    FeedLine(r, "");
  }

  /** An event frame makes an idle reader dispatch exactly that event and
      become idle again. */
  lemma EventFrame(r: Reader, name: string, data: string)
    requires Idle(r) && name != "" && '\n' !in name && '\n' !in data
    ensures Feed(r, "event: " + name + "\n" + "data: " + data + "\n\n") == r.(out := r.out + [Dispatched(name, data)])
  {
    var l1 := "event: " + name + "\n";
    var l2 := "data: " + data + "\n";
    assert "event: " + name + "\n" + "data: " + data + "\n\n" == l1 + (l2 + "\n");
    FeedAppend(r, l1, l2 + "\n");
    EventLine(r, name);
    var r1 := r.(eventType := name);
    FeedAppend(r1, l2, "\n");
    DataLine(r1, data);
    var r2 := r1.(data := data + "\n");
    assert r1.data + data + "\n" == r2.data;
    BlankLine(r2);
    assert r2.data[..|r2.data| - 1] == data;
  }

  /** A comment frame leaves an idle reader as it was. */
  lemma CommentFrame(r: Reader, text: string)
    requires Idle(r) && '\n' !in text
    ensures Feed(r, ": " + text + "\n\n") == r
  {
    assert ": " + text + "\n\n" == (": " + text + "\n") + "\n";
    FeedAppend(r, ": " + text + "\n", "\n");
    CommentLine(r, text);
    BlankLineIdle(r);
  }

  /** A frame read by an idle reader dispatches the event it carries, if
      any, and leaves the reader idle. */
  lemma FrameDispatches(r: Reader, m: Message, stringify: Json -> string)
    requires Idle(r)
    requires m.Event? ==> m.name != "" && '\n' !in m.name && '\n' !in stringify(m.payload)
    requires m.Comment? ==> '\n' !in m.text
    ensures Feed(r, Frame(m, stringify)) == r.(out := r.out + EventOf(m, stringify))
  {
    if m.Event? {
      EventFrame(r, m.name, stringify(m.payload));
    } else {
      CommentFrame(r, m.text);
      assert r.out + [] == r.out;
    }
  }

  /** Messages that frame cleanly: non-empty event names, and no LF in a
      name, a serialised payload or a comment. */
  predicate Framable(ms: seq<Message>, stringify: Json -> string) {
    forall i :: 0 <= i < |ms| ==>
      && (ms[i].Event? ==> ms[i].name != "" && '\n' !in ms[i].name && '\n' !in stringify(ms[i].payload))
      && (ms[i].Comment? ==> '\n' !in ms[i].text)
  }

  lemma FramableTail(ms: seq<Message>, stringify: Json -> string)
    requires ms != [] && Framable(ms, stringify)
    ensures Framable(ms[1..], stringify)
    ensures ms[0].Event? ==> ms[0].name != "" && '\n' !in ms[0].name && '\n' !in stringify(ms[0].payload)
    ensures ms[0].Comment? ==> '\n' !in ms[0].text
  {
    assert forall i :: 0 <= i < |ms[1..]| ==> ms[1..][i] == ms[i + 1];
  }

  /** Reading the first frame of a framable stream dispatches its event and
      leaves the reader idle before the rest. */
  lemma FeedWireStep(r: Reader, ms: seq<Message>, stringify: Json -> string)
    requires Idle(r) && ms != [] && Framable(ms, stringify)
    ensures Framable(ms[1..], stringify)
    ensures Feed(r, Wire(ms, stringify)) == Feed(r.(out := r.out + EventOf(ms[0], stringify)), Wire(ms[1..], stringify))
  {
    FramableTail(ms, stringify);
    FeedAppend(r, Frame(ms[0], stringify), Wire(ms[1..], stringify));
    FrameDispatches(r, ms[0], stringify);
  }

  /** The events of a non-empty message list are those of its head, then
      those of its tail. */
  lemma EventsCons(ms: seq<Message>, stringify: Json -> string)
    requires ms != []
    ensures Events(ms, stringify) == EventOf(ms[0], stringify) + Events(ms[1..], stringify)
  {
  }

  lemma {:induction false} FeedWire(r: Reader, ms: seq<Message>, stringify: Json -> string)
    requires Idle(r) && Framable(ms, stringify)
    ensures Feed(r, Wire(ms, stringify)) == r.(out := r.out + Events(ms, stringify))
    decreases |ms|
  {
    if ms == [] {
      assert r.out + [] == r.out;
    } else {
      FeedWireStep(r, ms, stringify);
      EventsCons(ms, stringify);
      var first := EventOf(ms[0], stringify);
      var r1 := r.(out := r.out + first);
      FeedWire(r1, ms[1..], stringify);
      OutGrows(r, first, Events(ms[1..], stringify));
    }
  }

  /** Dispatching two batches one after the other dispatches both. */
  lemma OutGrows(r: Reader, first: seq<Dispatched>, rest: seq<Dispatched>)
    ensures r.(out := r.out + first).(out := r.out + first + rest) == r.(out := r.out + (first + rest))
  {
    assert r.out + first + rest == r.out + (first + rest);
  }

  /** A client reading everything written on a stream dispatches the
      server's events in the order they were written, and nothing for the
      comments. */
  lemma StreamRoundTrip(ms: seq<Message>, stringify: Json -> string)
    requires Framable(ms, stringify)
    ensures Interpret(Wire(ms, stringify)) == Events(ms, stringify)
  {
    FeedWire(Fresh, ms, stringify);
  }
}
