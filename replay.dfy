/**
 * `load`: reading a chat log back into messages.  The log is newline-delimited
 * JSON, one serialised chat message per line; blank lines and lines that are not
 * a chat message are skipped.  Reading the file is I/O, so its text is a
 * parameter, as is the JSON text parser.
 */
module Replay {
  import opened Json
  import opened Api

  /** `str::split('\n')`: the pieces between newlines; one more piece than newlines. */
  function Split(s: string): (r: seq<string>)
    ensures |r| >= 1
    decreases |s|
  {
    if s == [] then [""]
    else if s[0] == '\n' then [""] + Split(s[1..])
    else
      var rest := Split(s[1..]);
      [[s[0]] + rest[0]] + rest[1..]
  }

  /** `str::split_terminator('\n')`: as `split`, without the empty piece after a final newline. */
  function SplitTerminator(s: string): (r: seq<string>) {
    var pieces := Split(s);
    if pieces[|pieces| - 1] == "" then pieces[..|pieces| - 1] else pieces
  }

  /** One line of the log: trimmed, and kept when it is not blank and reads as a chat message. */
  function LoadLine(line: string, parse: Parser): (r: Option<ChatMessage>)
    ensures r.Some? ==> Trim(line) != "" && parse(Trim(line)).Some?
  {
    var trimmed := Trim(line);
    if trimmed == "" then None
    else match parse(trimmed)
      case None => None
      case Some(v) => DecodeChatMessage(v)
  }

  /** The messages `read` finds in the lines, in order; a line it rejects drops out. */
  function Gather(lines: seq<string>, read: string -> Option<ChatMessage>): seq<ChatMessage>
    decreases |lines|
  {
    if lines == [] then []
    else
      var before := Gather(lines[..|lines| - 1], read);
      match read(lines[|lines| - 1])
      case None => before
      case Some(m) => before + [m]
  }

  /** How `load` reads one line. */
  function Reader(parse: Parser): string -> Option<ChatMessage> {
    line => LoadLine(line, parse)
  }

  /** The messages of the lines, in order. */
  function LoadLines(lines: seq<string>, parse: Parser): seq<ChatMessage> {
    Gather(lines, Reader(parse))
  }

  /** `load(path)`, given the file's text. */
  method Load(content: string, parse: Parser) returns (msgs: seq<ChatMessage>)
    ensures msgs == LoadLines(SplitTerminator(content), parse)
  {
    var lines := SplitTerminator(content);
    msgs := [];
    for i := 0 to |lines|
      invariant msgs == LoadLines(lines[..i], parse)
    {
      assert lines[..i + 1][..i] == lines[..i];
      var line := Trim(lines[i]);
      if line == "" {
        continue;
      }
      var msg := parse(line);
      if msg.None? {
        continue;
      }
      var decoded := DecodeChatMessage(msg.value);
      if decoded.None? {
        continue;
      }
      msgs := msgs + [decoded.value];
    }
    assert lines[..|lines|] == lines;
  }

  /** Gathering lines one part after another gives the messages of both parts in order, so
      a line that is not a message drops out without disturbing the rest. */
  lemma {:induction false} GatherAppend(a: seq<string>, b: seq<string>, read: string -> Option<ChatMessage>)
    ensures Gather(a + b, read) == Gather(a, read) + Gather(b, read)
    decreases |b|
  {
    if b == [] {
      assert a + b == a;
    } else {
      var init, last := b[..|b| - 1], b[|b| - 1];
      GatherAppend(a, init, read);
      assert a + b == (a + init) + [last];
      assert b == init + [last];
      GatherSnoc(a + init, last, read);
      GatherSnoc(init, last, read);
      var x, y := Gather(a, read), Gather(init, read);
      if read(last).Some? {
        assert (x + y) + [read(last).value] == x + (y + [read(last).value]);
      }
    }
  }

  /** The messages of some lines and one more: the last line adds its message, if any. */
  lemma GatherSnoc(lines: seq<string>, line: string, read: string -> Option<ChatMessage>)
    ensures Gather(lines + [line], read) ==
      if read(line).Some? then Gather(lines, read) + [read(line).value] else Gather(lines, read)
  {
    assert (lines + [line])[..|lines|] == lines;
  }

  /** At most one message per line. */
  lemma {:induction false} GatherBound(lines: seq<string>, read: string -> Option<ChatMessage>)
    ensures |Gather(lines, read)| <= |lines|
    decreases |lines|
  {
    if lines != [] {
      GatherBound(lines[..|lines| - 1], read);
    }
  }

  /** Lines that each read as a message give those messages, in order. */
  lemma {:induction false} GatherEvery(lines: seq<string>, msgs: seq<ChatMessage>, read: string -> Option<ChatMessage>)
    requires |lines| == |msgs|
    requires forall i :: 0 <= i < |lines| ==> read(lines[i]) == Some(msgs[i])
    ensures Gather(lines, read) == msgs
    decreases |lines|
  {
    if lines != [] {
      var n := |lines| - 1;
      GatherEvery(lines[..n], msgs[..n], read);
      GatherSnoc(lines[..n], lines[n], read);
      assert lines[..n] + [lines[n]] == lines;
      assert msgs[..n] + [msgs[n]] == msgs;
    }
  }

  /** The text of a log whose lines are `lines`: each line followed by a newline, as
      `writeln!` writes them. */
  function LogText(lines: seq<string>): string
    decreases |lines|
  {
    if lines == [] then "" else lines[0] + "\n" + LogText(lines[1..])
  }

  predicate NoNewline(s: string) {
    forall i :: 0 <= i < |s| ==> s[i] != '\n'
  }

  lemma {:induction false} SplitLine(line: string, rest: string)
    requires NoNewline(line)
    ensures Split(line + "\n" + rest) == [line] + Split(rest)
    decreases |line|
  {
    var s := line + "\n" + rest;
    if line == [] {
      assert s == "\n" + rest;
      assert s[1..] == rest;
    } else {
      assert s[0] == line[0];
      assert s[1..] == line[1..] + "\n" + rest;
      SplitLine(line[1..], rest);
      assert [line[0]] + line[1..] == line;
    }
  }

  /** Splitting a log's text gives back its lines, however many are blank. */
  lemma {:induction false} SplitLogText(lines: seq<string>)
    requires forall i :: 0 <= i < |lines| ==> NoNewline(lines[i])
    ensures Split(LogText(lines)) == lines + [""]
    ensures SplitTerminator(LogText(lines)) == lines
    decreases |lines|
  {
    if lines != [] {
      SplitLogText(lines[1..]);
      SplitLine(lines[0], LogText(lines[1..]));
      assert lines[0] + "\n" + LogText(lines[1..]) == LogText(lines);
      assert [lines[0]] + (lines[1..] + [""]) == lines + [""];
    }
    assert (lines + [""])[..|lines|] == lines;
  }

  /** The log lines of a transcript, each message serialised by `render`. */
  function Rendered(msgs: seq<ChatMessage>, render: Value -> string): (r: seq<string>)
    ensures |r| == |msgs|
    decreases |msgs|
  {
    if msgs == [] then []
    else Rendered(msgs[..|msgs| - 1], render) + [render(EncodeChatMessage(msgs[|msgs| - 1]))]
  }

  /** Each line of the log is its message, serialised. */
  lemma {:induction false} RenderedAt(msgs: seq<ChatMessage>, render: Value -> string, i: nat)
    requires i < |msgs|
    ensures Rendered(msgs, render)[i] == render(EncodeChatMessage(msgs[i]))
    decreases |msgs|
  {
    if i < |msgs| - 1 {
      RenderedAt(msgs[..|msgs| - 1], render, i);
    }
  }

  /** A log whose lines are a header and then the serialised `msgs` loads back as `msgs`,
      for a serialiser that writes one line that needs no trimming and that the parser reads
      back.  A first line that is not an object, such as the logged command line, is
      skipped. */
  lemma LoadLogged(header: string, msgs: seq<ChatMessage>, render: Value -> string, parse: Parser)
    requires NoNewline(header)
    requires parse(Trim(header)).None? || !parse(Trim(header)).value.Object?
    requires forall i :: 0 <= i < |msgs| ==>
      NoNewline(render(EncodeChatMessage(msgs[i]))) && ReadsBack(msgs[i], render, parse)
    ensures LoadLines(SplitTerminator(LogText([header] + Rendered(msgs, render))), parse) == msgs
  {
    var lines := Rendered(msgs, render);
    LoggedLines(header, msgs, render);
    GatherAppend([header], lines, Reader(parse));
    HeaderSkipped(header, parse);
    LoadRendered(msgs, render, parse);
    assert [] + msgs == msgs;
  }

  /** The lines of a log read back as written: the header, then one line per message. */
  lemma LoggedLines(header: string, msgs: seq<ChatMessage>, render: Value -> string)
    requires NoNewline(header)
    requires forall i :: 0 <= i < |msgs| ==> NoNewline(render(EncodeChatMessage(msgs[i])))
    ensures SplitTerminator(LogText([header] + Rendered(msgs, render))) == [header] + Rendered(msgs, render)
  {
    var lines := Rendered(msgs, render);
    RenderedNoNewline(msgs, render);
    var all := [header] + lines;
    assert forall i :: 0 <= i < |all| ==> NoNewline(all[i]) by {
      forall i | 0 <= i < |all| ensures NoNewline(all[i]) {
        if i > 0 {
          assert all[i] == lines[i - 1];
        }
      }
    }
    SplitLogText(all);
  }

  /** A serialiser that writes each message on one line gives a log whose lines have no newline. */
  lemma RenderedNoNewline(msgs: seq<ChatMessage>, render: Value -> string)
    requires forall i :: 0 <= i < |msgs| ==> NoNewline(render(EncodeChatMessage(msgs[i])))
    ensures forall i :: 0 <= i < |msgs| ==> NoNewline(Rendered(msgs, render)[i])
  {
    forall i | 0 <= i < |msgs| ensures NoNewline(Rendered(msgs, render)[i]) {
      RenderedAt(msgs, render, i);
    }
  }

  /** A line that is not a JSON object yields no message. */
  lemma HeaderSkipped(header: string, parse: Parser)
    requires parse(Trim(header)).None? || !parse(Trim(header)).value.Object?
    ensures LoadLines([header], parse) == []
  {
    assert LoadLine(header, parse) == None;
    assert Reader(parse)(header) == None;
    assert [header][..0] == [];
    assert Gather([header], Reader(parse)) == Gather([], Reader(parse));
  }

  /** `render` writes `m` as a single non-blank line, with no surrounding whitespace, that
      `parse` reads back as the value it serialised. */
  predicate ReadsBack(m: ChatMessage, render: Value -> string, parse: Parser) {
    var text := render(EncodeChatMessage(m));
    text != "" && Trim(text) == text && parse(text) == Some(EncodeChatMessage(m))
  }

  /** Serialised messages that each read back load as the transcript. */
  lemma LoadRendered(msgs: seq<ChatMessage>, render: Value -> string, parse: Parser)
    requires forall i :: 0 <= i < |msgs| ==> ReadsBack(msgs[i], render, parse)
    ensures LoadLines(Rendered(msgs, render), parse) == msgs
  {
    var lines := Rendered(msgs, render);
    forall i | 0 <= i < |msgs| ensures Reader(parse)(lines[i]) == Some(msgs[i]) {
      RenderedAt(msgs, render, i);
      LoadLineRendered(msgs[i], render, parse);
    }
    GatherEvery(lines, msgs, Reader(parse));
  }

  /** One serialised message reads back as itself. */
  lemma LoadLineRendered(m: ChatMessage, render: Value -> string, parse: Parser)
    requires ReadsBack(m, render, parse)
    ensures LoadLine(render(EncodeChatMessage(m)), parse) == Some(m)
  {
    ChatMessageRoundTrip(m);
  }
}
