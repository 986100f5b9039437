/**
 * What `accumulate` promises, stated over its specification `Run`: a refused
 * response delivers nothing, a streamed body is read chunk by chunk and stops
 * for good at the first error or Break, values split over several chunks are
 * reassembled, the whole-body path delivers exactly once, and a collecting
 * member sees every delivered value in order.
 */
module EngineLaws {
  import opened Json
  import opened Api
  import opened Sinks
  import opened Engine

  /** Reading a body of decodable chunks appends their text. */
  lemma {:induction false} DrainAllText(body: seq<Chunk>, text: string)
    requires AllText(body)
    ensures Drain(body, text) == Ok(text + Texts(body))
    decreases |body|
  {
    if body == [] {
      assert text + "" == text;
    } else {
      assert AllText(body[1..]);
      DrainAllText(body[1..], text + body[0].text);
      assert text + body[0].text + Texts(body[1..]) == text + (body[0].text + Texts(body[1..]));
    }
  }

  /** A response whose status is not 200 is an error carrying its body text, whatever the
      request; the accumulator is never called. */
  lemma RefusedResponse(streaming: bool, resp: Response, parse: Parser, sinks: seq<SinkState>)
    requires resp.status != 200
    ensures var o := Run(streaming, resp, parse, sinks);
      o.result.Err? && o.sinks == sinks && o.delivered == [] && !o.stopped
    ensures AllText(resp.body) ==> Run(streaming, resp, parse, sinks).result == Err(Message(Texts(resp.body)))
  {
    if AllText(resp.body) {
      DrainAllText(resp.body, "");
      assert "" + Texts(resp.body) == Texts(resp.body);
    }
  }

  /** Without streaming, the trimmed whole body is one value: it is delivered exactly once and
      the call succeeds even if the accumulator asks to stop; a body that does not parse is a
      JSON error and nothing is delivered. */
  lemma WholeBodyOnce(resp: Response, parse: Parser, sinks: seq<SinkState>)
    requires resp.status == 200 && AllText(resp.body)
    ensures var o := Run(false, resp, parse, sinks);
      match parse(Trim(Texts(resp.body)))
      case None => o.result == Err(JsonError) && o.delivered == [] && o.sinks == sinks
      case Some(v) => o.result == Ok(()) && o.delivered == [v] && o.sinks == FanOut(sinks, v).0
  {
    DrainAllText(resp.body, "");
    assert "" + Texts(resp.body) == Texts(resp.body);
  }

  /** One chunk: a value reaches the sinks only when the buffer parses and is not a service
      error, and then exactly as the fan-out decides; the loop ends with Ok exactly when the
      sinks ask to stop, and with the service error's text when the buffer is one; an empty
      trimmed chunk changes nothing. */
  lemma FeedFacts(chunk: string, parse: Parser, leftovers: string, sinks: seq<SinkState>)
    ensures var f := Feed(chunk, parse, leftovers, sinks);
      && (f.message.None? ==> f.sinks == sinks)
      && (f.message.Some? ==>
            && chunk != ""
            && parse(leftovers + chunk) == Some(f.message.value)
            && DecodeErrorResponse(f.message.value).None?
            && (f.sinks, if f.halt.Some? then Break else Continue) == FanOut(sinks, f.message.value))
      && (f.halt.Some? ==> f.halt.value.Ok? == f.message.Some?)
      && (f.halt.Some? && f.halt.value.Err? ==>
            f.halt.value == Err(Message(ServiceError(parse, leftovers + chunk).value)))
      && (f.halt.None? && f.message.Some? ==> f.buffer == "")
      && (f.message.None? ==> f.buffer == leftovers + chunk)
    ensures chunk == "" ==> Feed(chunk, parse, leftovers, sinks) == Fed(None, leftovers, sinks, None)
  {
    assert leftovers + "" == leftovers;
  }

  /** The streaming loop appends what it delivers, at most one value per chunk, none of them
      a service error; it never fails with a JSON error, and a stop is a success. */
  lemma {:induction false} StreamShape(body: seq<Chunk>, parse: Parser, leftovers: string, sinks: seq<SinkState>, delivered: seq<Value>)
    ensures var o := Stream(body, parse, leftovers, sinks, delivered);
      && |delivered| <= |o.delivered| <= |delivered| + |body|
      && o.delivered[..|delivered|] == delivered
      && (forall j :: |delivered| <= j < |o.delivered| ==> DecodeErrorResponse(o.delivered[j]).None?)
      && o.result != Err(JsonError)
      && (o.stopped ==> o.result.Ok?)
    decreases |body|
  {
    if body != [] && body[0].Bytes? {
      var f := Feed(Trim(body[0].text), parse, leftovers, sinks);
      FeedFacts(Trim(body[0].text), parse, leftovers, sinks);
      var given := delivered + Given(f);
      if f.halt.None? {
        StreamShape(body[1..], parse, f.buffer, f.sinks, given);
        var o := Stream(body[1..], parse, f.buffer, f.sinks, given);
        assert o.delivered[..|delivered|] == (o.delivered[..|given|])[..|delivered|];
        forall j | |delivered| <= j < |o.delivered| ensures DecodeErrorResponse(o.delivered[j]).None? {
          if j < |given| {
            assert o.delivered[j] == given[j] == f.message.value;
          }
        }
      } else {
        forall j | |delivered| <= j < |given| ensures DecodeErrorResponse(given[j]).None? {
          assert given[j] == f.message.value;
        }
      }
    }
  }

  /** Once the loop ends early — an error, or the accumulator asking to stop — the rest of
      the body is never read. */
  lemma {:induction false} StreamIgnoresRest(a: seq<Chunk>, b: seq<Chunk>, parse: Parser, leftovers: string, sinks: seq<SinkState>, delivered: seq<Value>)
    requires var o := Stream(a, parse, leftovers, sinks, delivered); o.result.Err? || o.stopped
    ensures Stream(a + b, parse, leftovers, sinks, delivered) == Stream(a, parse, leftovers, sinks, delivered)
    decreases |a|
  {
    if a != [] {
      assert (a + b)[0] == a[0] && (a + b)[1..] == a[1..] + b;
      if a[0].Bytes? {
        var f := Feed(Trim(a[0].text), parse, leftovers, sinks);
        if f.halt.None? {
          StreamIgnoresRest(a[1..], b, parse, f.buffer, f.sinks, delivered + Given(f));
        }
      }
    }
  }

  /** A body read in two parts: when the first part neither fails nor stops, the loop goes on
      with the second part from exactly the buffer, sinks and deliveries the first left. */
  lemma {:induction false} StreamSplit(a: seq<Chunk>, b: seq<Chunk>, parse: Parser, leftovers: string, sinks: seq<SinkState>, delivered: seq<Value>)
    requires var o := Stream(a, parse, leftovers, sinks, delivered); o.result.Ok? && !o.stopped
    ensures var o := Stream(a, parse, leftovers, sinks, delivered);
      Stream(a + b, parse, leftovers, sinks, delivered) == Stream(b, parse, o.leftovers, o.sinks, o.delivered)
    decreases |a|
  {
    if a == [] {
      assert a + b == b;
    } else {
      assert (a + b)[0] == a[0] && (a + b)[1..] == a[1..] + b;
      if a[0].Bytes? {
        var f := Feed(Trim(a[0].text), parse, leftovers, sinks);
        if f.halt.None? {
          StreamSplit(a[1..], b, parse, f.buffer, f.sinks, delivered + Given(f));
        }
      }
    }
  }

  /** A chunk after which the buffer does not parse is only buffered. */
  lemma FeedUnparsed(chunk: string, parse: Parser, leftovers: string, sinks: seq<SinkState>)
    requires parse(leftovers + chunk) == None
    ensures Feed(chunk, parse, leftovers, sinks) == Fed(None, leftovers + chunk, sinks, None)
  {
  }

  /** The trimmed text of a non-empty prefix: the first chunk's, then the rest's. */
  lemma BufferedPrefix(body: seq<Chunk>, leftovers: string, k: nat)
    requires AllText(body) && 0 < k <= |body|
    ensures AllText(body[1..][..k - 1])
    ensures leftovers + TrimmedTexts(body[..k]) == (leftovers + Trim(body[0].text)) + TrimmedTexts(body[1..][..k - 1])
  {
    assert body[..k][1..] == body[1..][..k - 1];
  }

  /** Chunks that never complete a value are only buffered: trimmed, and in order. */
  lemma {:induction false} StreamBuffers(body: seq<Chunk>, parse: Parser, leftovers: string, sinks: seq<SinkState>, delivered: seq<Value>)
    requires AllText(body)
    requires forall k :: 0 < k <= |body| ==> parse(leftovers + TrimmedTexts(body[..k])) == None
    ensures Stream(body, parse, leftovers, sinks, delivered) ==
      Outcome(Ok(()), sinks, delivered, leftovers + TrimmedTexts(body), false)
    decreases |body|
  {
    if body == [] {
      assert leftovers + "" == leftovers;
    } else {
      var rest := body[1..];
      var buffered := leftovers + Trim(body[0].text);
      assert AllText(rest);
      BufferedPrefix(body, leftovers, 1);
      assert rest[..0] == [];
      assert buffered + "" == buffered;
      forall k | 0 < k <= |rest|
        ensures parse(buffered + TrimmedTexts(rest[..k])) == None
      {
        BufferedPrefix(body, leftovers, k + 1);
      }
      FeedUnparsed(Trim(body[0].text), parse, leftovers, sinks);
      assert delivered + [] == delivered;
      assert Stream(body, parse, leftovers, sinks, delivered) == Stream(rest, parse, buffered, sinks, delivered);
      StreamBuffers(rest, parse, buffered, sinks, delivered);
      assert body[..|body|] == body;
      BufferedPrefix(body, leftovers, |body|);
      assert rest[..|body| - 1] == rest;
    }
  }

  /** A value split over several chunks is delivered once, when its last piece arrives: the
      buffer is the trimmed pieces joined, and it is cleared unless the sinks ask to stop. */
  lemma Reassembly(pieces: seq<Chunk>, last: string, parse: Parser, sinks: seq<SinkState>, v: Value)
    requires AllText(pieces)
    requires forall k :: 0 < k <= |pieces| ==> parse(TrimmedTexts(pieces[..k])) == None
    requires Trim(last) != ""
    requires parse(TrimmedTexts(pieces) + Trim(last)) == Some(v)
    requires DecodeErrorResponse(v).None?
    ensures var fan := FanOut(sinks, v);
      Stream(pieces + [Bytes(last)], parse, "", sinks, []) ==
      Outcome(Ok(()), fan.0, [v], if fan.1 == Break then TrimmedTexts(pieces) + Trim(last) else "", fan.1 == Break)
  {
    forall k | 0 < k <= |pieces| ensures parse("" + TrimmedTexts(pieces[..k])) == None {
      assert "" + TrimmedTexts(pieces[..k]) == TrimmedTexts(pieces[..k]);
    }
    StreamBuffers(pieces, parse, "", sinks, []);
    assert "" + TrimmedTexts(pieces) == TrimmedTexts(pieces);
    StreamSplit(pieces, [Bytes(last)], parse, "", sinks, []);
    assert [Bytes(last)][1..] == [];
  }

  /** A service error split over several chunks ends the call with its text as soon as it is
      complete; nothing is delivered and the sinks are untouched. */
  lemma ReassembledError(pieces: seq<Chunk>, last: string, parse: Parser, sinks: seq<SinkState>, v: Value)
    requires AllText(pieces)
    requires forall k :: 0 < k <= |pieces| ==> parse(TrimmedTexts(pieces[..k])) == None
    requires Trim(last) != ""
    requires parse(TrimmedTexts(pieces) + Trim(last)) == Some(v)
    requires DecodeErrorResponse(v).Some?
    ensures Stream(pieces + [Bytes(last)], parse, "", sinks, []) ==
      Outcome(Err(Message(DecodeErrorResponse(v).value)), sinks, [], TrimmedTexts(pieces) + Trim(last), false)
  {
    forall k | 0 < k <= |pieces| ensures parse("" + TrimmedTexts(pieces[..k])) == None {
      assert "" + TrimmedTexts(pieces[..k]) == TrimmedTexts(pieces[..k]);
    }
    StreamBuffers(pieces, parse, "", sinks, []);
    assert "" + TrimmedTexts(pieces) == TrimmedTexts(pieces);
    StreamSplit(pieces, [Bytes(last)], parse, "", sinks, []);
  }

  /** One chunk: a collecting member that no chat renderer precedes takes the value the chunk
      delivers, if any, and still has no chat renderer before it. */
  lemma FeedCollects(chunk: string, parse: Parser, leftovers: string, sinks: seq<SinkState>, k: nat)
    requires k < |sinks| && sinks[k].Collect?
    requires forall j :: 0 <= j < k ==> !sinks[j].ChatRender?
    ensures var f := Feed(chunk, parse, leftovers, sinks);
      && f.sinks[k] == Collect(sinks[k].items + Given(f))
      && forall j :: 0 <= j < k ==> !f.sinks[j].ChatRender?
  {
    var f := Feed(chunk, parse, leftovers, sinks);
    FeedFacts(chunk, parse, leftovers, sinks);
    if f.message.None? {
      assert sinks[k].items + [] == sinks[k].items;
    } else {
      var m := f.message.value;
      CollectorSeesValue(sinks, m, k);
      FanOutKeepsKinds(sinks, m);
      forall j | 0 <= j < k ensures !f.sinks[j].ChatRender? {
        assert SameKind(sinks[j], f.sinks[j]);
      }
    }
  }

  /** What a collector took from one chunk, followed by what it took later, is what it took
      since `delivered`. */
  lemma CollectedInOrder(items: seq<Value>, delivered: seq<Value>, given: seq<Value>, all: seq<Value>)
    requires |delivered + given| <= |all| && all[..|delivered + given|] == delivered + given
    ensures |delivered| <= |all|
    ensures items + given + all[|delivered + given|..] == items + all[|delivered|..]
  {
    assert all[|delivered|..] == given + all[|delivered + given|..];
  }

  /** A collecting member that no chat renderer precedes ends holding every value the loop
      delivered, in order, after what it held before. */
  lemma {:induction false} StreamCollects(body: seq<Chunk>, parse: Parser, leftovers: string, sinks: seq<SinkState>, delivered: seq<Value>, k: nat)
    requires k < |sinks| && sinks[k].Collect?
    requires forall j :: 0 <= j < k ==> !sinks[j].ChatRender?
    ensures var o := Stream(body, parse, leftovers, sinks, delivered);
      |delivered| <= |o.delivered| && o.sinks[k] == Collect(sinks[k].items + o.delivered[|delivered|..])
    decreases |body|
  {
    var o := Stream(body, parse, leftovers, sinks, delivered);
    if body == [] || !body[0].Bytes? {
      assert o.delivered[|delivered|..] == [];
      assert sinks[k].items + [] == sinks[k].items;
    } else {
      var f := Feed(Trim(body[0].text), parse, leftovers, sinks);
      var given := delivered + Given(f);
      FeedCollects(Trim(body[0].text), parse, leftovers, sinks, k);
      if f.halt.Some? {
        assert o.delivered == given;
        assert o.delivered[|delivered|..] == Given(f);
      } else {
        assert o == Stream(body[1..], parse, f.buffer, f.sinks, given);
        StreamCollects(body[1..], parse, f.buffer, f.sinks, given, k);
        StreamShape(body[1..], parse, f.buffer, f.sinks, given);
        CollectedInOrder(sinks[k].items, delivered, Given(f), o.delivered);
      }
    }
  }

  /** Whatever the path, a collecting member that no chat renderer precedes ends holding its
      old items followed by every value `accumulate` delivered. */
  lemma CollectorSeesEverything(streaming: bool, resp: Response, parse: Parser, sinks: seq<SinkState>, k: nat)
    requires k < |sinks| && sinks[k].Collect?
    requires forall j :: 0 <= j < k ==> !sinks[j].ChatRender?
    ensures var o := Run(streaming, resp, parse, sinks);
      o.sinks[k] == Collect(sinks[k].items + o.delivered)
  {
    var o := Run(streaming, resp, parse, sinks);
    if resp.status != 200 {
      assert sinks[k].items + [] == sinks[k].items;
    } else if streaming {
      StreamCollects(resp.body, parse, "", sinks, [], k);
      assert o.delivered[0..] == o.delivered;
    } else if o.delivered == [] {
      assert sinks[k].items + [] == sinks[k].items;
    } else {
      CollectorSeesValue(sinks, o.delivered[0], k);
    }
  }

  /** Each chunk is trimmed before it is buffered, so whitespace at a chunk boundary is lost:
      a body split after "a " buffers "ab", not the "a b" the body holds. */
  lemma BoundaryWhitespaceLost()
    ensures var body := [Bytes("a "), Bytes("b")];
      Texts(body) == "a b" && TrimmedTexts(body) == "ab"
  {
    var body := [Bytes("a "), Bytes("b")];
    assert body[1..] == [Bytes("b")];
    assert body[1..][1..] == [];
    assert !IsWhitespace('a') && !IsWhitespace('b');
    TrimKeeps("a");
    TrimKeeps("b");
    assert TrimEnd("a ") == "a" by {
      assert "a "[..1] == "a";
      assert TrimEnd("a "[..1]) == "a";
    }
  }

  /** A parser that reads exactly the texts "A" and "B", as two different values. */
  function ReadsAOrB(text: string): Option<Value> {
    if text == "A" then Some(Str("A")) else if text == "B" then Some(Str("B")) else None
  }

  /** The buffer is parsed as one value: a chunk that carries two complete values delivers
      neither and the call still succeeds (compare `SeparateValuesDelivered`). */
  lemma CoalescedValuesLost()
    ensures var o := Stream([Bytes("AB")], ReadsAOrB, "", [Collect([])], []);
      o.result == Ok(()) && o.delivered == [] && o.leftovers == "AB"
  {
    assert !IsWhitespace('A') && !IsWhitespace('B');
    TrimKeeps("AB");
    assert "" + "AB" == "AB" && "AB" != "A" && "AB" != "B";
    assert Feed("AB", ReadsAOrB, "", [Collect([])]) == Fed(None, "AB", [Collect([])], None);
    assert [Bytes("AB")][1..] == [];
  }

  /** A group of one collector takes the value and goes on. */
  lemma LoneCollector(items: seq<Value>, v: Value)
    ensures FanOut([Collect(items)], v) == ([Collect(items + [v])], Continue)
  {
    assert [Collect(items)][1..] == [];
    assert [Collect(items + [v])] + [] == [Collect(items + [v])];
  }

  /** The two values of `CoalescedValuesLost`, sent in two chunks, are both delivered. */
  lemma SeparateValuesDelivered()
    ensures Stream([Bytes("A"), Bytes("B")], ReadsAOrB, "", [Collect([])], []).delivered == [Str("A"), Str("B")]
  {
    assert !IsWhitespace('A') && !IsWhitespace('B');
    TrimKeeps("A");
    TrimKeeps("B");
    assert "" + "A" == "A" && "" + "B" == "B";
    assert ReadsAOrB("A") == Some(Str("A")) && ReadsAOrB("B") == Some(Str("B"));
    assert ServiceError(ReadsAOrB, "A").None? && ServiceError(ReadsAOrB, "B").None?;
    LoneCollector([], Str("A"));
    LoneCollector([Str("A")], Str("B"));
    assert [] + [Str("A")] == [Str("A")] && [Str("A")] + [Str("B")] == [Str("A"), Str("B")];
    assert Feed("A", ReadsAOrB, "", [Collect([])]) == Fed(None, "", [Collect([Str("A")])], Some(Str("A")));
    assert Feed("B", ReadsAOrB, "", [Collect([Str("A")])]) == Fed(None, "", [Collect([Str("A"), Str("B")])], Some(Str("B")));
    var body := [Bytes("A"), Bytes("B")];
    assert body[1..] == [Bytes("B")] && body[1..][1..] == [];
  }
}
