/** The values that travel over the WebSocket, and the sequence vocabulary shared by the protocol proofs. */
module Messages {

  newtype byte = x: int | 0 <= x < 256

  datatype Option<+T> = None | Some(value: T)

  datatype Message =
    | Text(text: string)
    | Binary(bytes: seq<byte>)
    | Ping(bytes: seq<byte>)
    | Pong(bytes: seq<byte>)
    | Close

  datatype SocketError = ResetWithoutClosingHandshake | OtherError(code: nat)

  /** What one call of `next` on the read half of a socket yields. */
  datatype Item = Received(message: Message) | Failed(error: SocketError)

  /** What the keep-alive puts on the wire: accepted messages, its own pings, and the closing handshake. */
  datatype Frame = Carried(message: Message) | KeepAlivePing | ClosingFrame

  /** The messages on a wire: the frames without the keep-alive's pings and without the closing frame. */
  function Payload(wire: seq<Frame>): seq<Message> {
    if wire == [] then []
    else
      var front := Payload(wire[..|wire| - 1]);
      match wire[|wire| - 1]
      case Carried(m) => front + [m]
      case _ => front
  }

  /** The frames before the closing handshake. */
  function BeforeClosing(wire: seq<Frame>): seq<Frame> {
    if wire != [] && wire[|wire| - 1] == ClosingFrame then wire[..|wire| - 1] else wire
  }

  lemma PayloadAppend(wire: seq<Frame>, f: Frame)
    ensures Payload(wire + [f]) == Payload(wire) + (if f.Carried? then [f.message] else [])
  {
    assert (wire + [f])[..|wire|] == wire;
  }

  /** The keep-alive swallows pings and pongs and passes everything else on. */
  predicate IsPassed(i: Item) {
    i.Failed? || !(i.message.Ping? || i.message.Pong?)
  }

  function Passed(stream: seq<Item>): seq<Item> {
    if stream == [] then []
    else
      var front := Passed(stream[..|stream| - 1]);
      if IsPassed(stream[|stream| - 1]) then front + [stream[|stream| - 1]] else front
  }

  lemma PassedAppend(stream: seq<Item>, i: Item)
    ensures Passed(stream + [i]) == Passed(stream) + (if IsPassed(i) then [i] else [])
  {
    assert (stream + [i])[..|stream|] == stream;
  }

  /** Pings and pongs, and only those, are removed: everything else stays as often as it came, and nothing else is there. */
  lemma {:induction false} OnlyPingsAndPongsAreDropped(stream: seq<Item>, i: Item)
    ensures multiset(Passed(stream))[i]
         == if i.Received? && (i.message.Ping? || i.message.Pong?) then 0 else multiset(stream)[i]
  {
    if stream != [] {
      var n := |stream| - 1;
      OnlyPingsAndPongsAreDropped(stream[..n], i);
      assert stream == stream[..n] + [stream[n]];
    }
  }

  const CLOSE_ITEM := Received(Close)

  /** The longest prefix without a Close message. */
  function CutAtClose(items: seq<Item>): seq<Item> {
    if items == [] || items[0] == CLOSE_ITEM then [] else [items[0]] + CutAtClose(items[1..])
  }

  lemma {:induction false} PrefixOfCut(p: seq<Item>, items: seq<Item>)
    requires p <= items && CLOSE_ITEM !in p
    ensures p <= CutAtClose(items)
  {
    if p != [] {
      assert items[0] == p[0] && p[0] in p;
      assert p[1..] <= items[1..];
      PrefixOfCut(p[1..], items[1..]);
      assert p == [p[0]] + p[1..];
    }
  }

  /** Concatenation, peeled from the right because generations are added on the right. */
  function Concat<T>(parts: seq<seq<T>>): seq<T> {
    if parts == [] then [] else Concat(parts[..|parts| - 1]) + parts[|parts| - 1]
  }

  lemma ConcatAppend<T>(parts: seq<seq<T>>, part: seq<T>)
    ensures Concat(parts + [part]) == Concat(parts) + part
  {
    assert (parts + [part])[..|parts|] == parts;
  }

  /** Replacing one part exchanges exactly that part's elements. */
  lemma {:induction false} ConcatExchange<T>(parts: seq<seq<T>>, k: nat, part: seq<T>)
    requires k < |parts|
    ensures multiset(Concat(parts[k := part])) + multiset(parts[k]) == multiset(Concat(parts)) + multiset(part)
  {
    var n := |parts| - 1;
    var parts' := parts[k := part];
    if k == n {
      assert parts'[..n] == parts[..n];
    } else {
      var front, front' := Concat(parts[..n]), Concat(parts[..n][k := part]);
      ConcatExchange(parts[..n], k, part);
      assert parts'[..n] == parts[..n][k := part];
      AddBoth(multiset(front'), multiset(parts[k]), multiset(front), multiset(part), multiset(parts[n]));
      assert Concat(parts') == front' + parts[n];
    }
  }

  lemma AddBoth<T>(a: multiset<T>, b: multiset<T>, c: multiset<T>, d: multiset<T>, more: multiset<T>)
    requires a + b == c + d
    ensures (a + more) + b == (c + more) + d
  {
    assert (a + b) + more == (c + d) + more;
    assert (a + more) + b == (a + b) + more;
  }

  /** Extending the last part extends the concatenation. */
  lemma ConcatExtendLast<T>(parts: seq<seq<T>>, more: seq<T>)
    requires parts != []
    ensures Concat(parts[|parts| - 1 := parts[|parts| - 1] + more]) == Concat(parts) + more
  {
    var n := |parts| - 1;
    assert parts[n := parts[n] + more][..n] == parts[..n];
  }

  lemma {:induction false} ConcatAllEmpty<T>(parts: seq<seq<T>>)
    requires forall i :: 0 <= i < |parts| ==> parts[i] == []
    ensures Concat(parts) == []
  {
    if parts != [] {
      ConcatAllEmpty(parts[..|parts| - 1]);
    }
  }

  /** If every part keeps or grows its length, so does the concatenation. */
  lemma {:induction false} ConcatLonger<T>(parts: seq<seq<T>>, parts': seq<seq<T>>)
    requires |parts| <= |parts'|
    requires forall i :: 0 <= i < |parts| ==> |parts[i]| <= |parts'[i]|
    ensures |Concat(parts)| <= |Concat(parts')|
  {
    var n := |parts'| - 1;
    if parts' == [] {
    } else if |parts| == |parts'| {
      ConcatLonger(parts[..n], parts'[..n]);
    } else {
      ConcatLonger(parts, parts'[..n]);
    }
  }
}
