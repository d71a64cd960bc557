/**
 Collecting a partition from all machines: every sender cuts its array into messages that fit a buffer,
 messages of one sender arrive in order, and the collector appends them to the sender's array until the
 counts announced beforehand are reached.
 */
module ChunkedTransfer {

  const MAX_QUERYBUFFER_SIZE := 24576

  /** Words per message, behind the machine id and the length. */
  const MAX_TRANS_NUM := (MAX_QUERYBUFFER_SIZE - 4 - 8) / 4

  /** data[m] is dispatched by machine m, of which `sent` words have been sent; `channel` holds its messages
      on the way, `got` what the collector has stored for it. */
  datatype Sender = Sender(data: seq<nat>, sent: nat, channel: seq<seq<nat>>, got: seq<nat>)

  type State = seq<Sender>

  datatype Action = Send(m: nat) | Receive(m: nat)

  function ChunkSize(num: nat, sent: nat): nat
    requires sent <= num
  {
    if MAX_TRANS_NUM < num - sent then MAX_TRANS_NUM else num - sent
  }

  predicate CanTake(s: State, a: Action) {
    match a
    case Send(m) => m < |s| && s[m].sent < |s[m].data|
    case Receive(m) => m < |s| && s[m].channel != []
  }

  function Take(s: State, a: Action): State
    requires CanTake(s, a)
  {
    match a
    case Send(m) =>
      var x := s[m];
      var n := ChunkSize(|x.data|, x.sent);
      s[m := x.(sent := x.sent + n, channel := x.channel + [x.data[x.sent..x.sent + n]])]
    case Receive(m) =>
      var x := s[m];
      s[m := x.(channel := x.channel[1..], got := x.got + x.channel[0])]
  }

  function Initial(arrays: seq<seq<nat>>): State {
    seq(|arrays|, m requires 0 <= m < |arrays| => Sender(arrays[m], 0, [], []))
  }

  predicate Schedule(arrays: seq<seq<nat>>, actions: seq<Action>)
    decreases |actions|, 0
  {
    actions == [] ||
    var front := actions[..|actions| - 1];
    Schedule(arrays, front) && CanTake(After(arrays, front), actions[|actions| - 1])
  }

  function After(arrays: seq<seq<nat>>, actions: seq<Action>): State
    requires Schedule(arrays, actions)
    decreases |actions|, 1
  {
    if actions == [] then Initial(arrays) else Take(After(arrays, actions[..|actions| - 1]), actions[|actions| - 1])
  }

  /** collect_finish: no count is below what was announced. */
  predicate Finished(s: State) { forall m :: 0 <= m < |s| ==> |s[m].got| >= |s[m].data| }

  function Flat(chunks: seq<seq<nat>>): seq<nat> {
    if chunks == [] then [] else chunks[0] + Flat(chunks[1..])
  }

  lemma {:induction false} FlatMore(chunks: seq<seq<nat>>, c: seq<nat>)
    ensures Flat(chunks + [c]) == Flat(chunks) + c
  {
    if chunks != [] {
      FlatMore(chunks[1..], c);
      assert (chunks + [c])[1..] == chunks[1..] + [c];
    } else {
      assert [c][1..] == [] && c + [] == c;
    }
  }

  /** What has been stored, followed by what is on the way, is what has been sent. */
  ghost predicate SenderInv(x: Sender) {
    && x.sent <= |x.data| && x.data[..x.sent] == x.got + Flat(x.channel)
    && forall i :: 0 <= i < |x.channel| ==> 0 < |x.channel[i]| <= MAX_TRANS_NUM
  }

  ghost predicate Inv(s: State, arrays: seq<seq<nat>>) {
    |s| == |arrays| && forall m :: 0 <= m < |s| ==> s[m].data == arrays[m] && SenderInv(s[m])
  }

  lemma SendKeeps(x: Sender)
    requires SenderInv(x) && x.sent < |x.data|
    ensures var n := ChunkSize(|x.data|, x.sent);
            0 < n && SenderInv(x.(sent := x.sent + n, channel := x.channel + [x.data[x.sent..x.sent + n]]))
  {
    var n := ChunkSize(|x.data|, x.sent);
    var c := x.data[x.sent..x.sent + n];
    FlatMore(x.channel, c);
    assert x.data[..x.sent + n] == x.data[..x.sent] + c;
    assert x.got + Flat(x.channel) + c == x.got + (Flat(x.channel) + c);
  }

  lemma ReceiveKeeps(x: Sender)
    requires SenderInv(x) && x.channel != []
    ensures SenderInv(x.(channel := x.channel[1..], got := x.got + x.channel[0]))
  {
    assert x.got + (x.channel[0] + Flat(x.channel[1..])) == x.got + x.channel[0] + Flat(x.channel[1..]);
  }

  lemma {:induction false} ScheduleKeepsInv(arrays: seq<seq<nat>>, actions: seq<Action>)
    requires Schedule(arrays, actions)
    ensures Inv(After(arrays, actions), arrays)
    decreases |actions|
  {
    if actions != [] {
      ScheduleKeepsInv(arrays, actions[..|actions| - 1]);
      var s, a := After(arrays, actions[..|actions| - 1]), actions[|actions| - 1];
      match a
      case Send(m) => SendKeeps(s[m]);
      case Receive(m) => ReceiveKeeps(s[m]);
    }
  }

  /** Whatever the interleaving, what is stored is always a prefix of what was dispatched, so it never
      overruns its array; and the finish test is true exactly when every array has arrived unchanged. */
  lemma FinishedExactly(arrays: seq<seq<nat>>, actions: seq<Action>)
    requires Schedule(arrays, actions)
    ensures var s := After(arrays, actions);
            && |s| == |arrays|
            && (forall m :: 0 <= m < |s| ==> s[m].got <= arrays[m])
            && (Finished(s) <==> forall m :: 0 <= m < |s| ==> s[m].got == arrays[m])
  {
    ScheduleKeepsInv(arrays, actions);
    var s := After(arrays, actions);
    forall m | 0 <= m < |s|
      ensures s[m].got <= arrays[m]
    {
      assert arrays[m][..s[m].sent][..|s[m].got|] == s[m].got;
      assert arrays[m][..s[m].sent][..|s[m].got|] == arrays[m][..|s[m].got|];
    }
  }

  // ----- Every transfer ends

  /** Words not yet sent count twice, messages not yet received once. */
  function Left(s: State, n: nat): int
    requires n <= |s|
  {
    if n == 0 then 0 else Left(s, n - 1) + 2 * (|s[n - 1].data| - s[n - 1].sent) + |s[n - 1].channel|
  }

  lemma {:induction false} LeftBut(s: State, s1: State, n: nat, m: nat)
    requires m < n <= |s| == |s1| && forall i :: 0 <= i < n && i != m ==> s[i] == s1[i]
    ensures Left(s1, n) - Left(s, n) ==
            2 * (|s1[m].data| - s1[m].sent) + |s1[m].channel| - (2 * (|s[m].data| - s[m].sent) + |s[m].channel|)
  {
    if m < n - 1 {
      LeftBut(s, s1, n - 1, m);
    } else {
      LeftSame(s, s1, m);
    }
  }

  lemma {:induction false} LeftSame(s: State, s1: State, n: nat)
    requires n <= |s| == |s1| && forall i :: 0 <= i < n ==> s[i] == s1[i]
    ensures Left(s, n) == Left(s1, n)
  {
    if n > 0 {
      LeftSame(s, s1, n - 1);
    }
  }

  lemma {:induction false} LeftIsNat(s: State, arrays: seq<seq<nat>>, n: nat)
    requires Inv(s, arrays) && n <= |s|
    ensures Left(s, n) >= 0
  {
    if n > 0 {
      LeftIsNat(s, arrays, n - 1);
    }
  }

  function Words(arrays: seq<seq<nat>>, n: nat): nat
    requires n <= |arrays|
  {
    if n == 0 then 0 else Words(arrays, n - 1) + |arrays[n - 1]|
  }

  lemma {:induction false} LeftAtFirst(arrays: seq<seq<nat>>, n: nat)
    requires n <= |arrays|
    ensures Left(Initial(arrays), n) == 2 * Words(arrays, n)
  {
    if n > 0 {
      LeftAtFirst(arrays, n - 1);
    }
  }

  lemma {:induction false} StepsBounded(arrays: seq<seq<nat>>, actions: seq<Action>)
    requires Schedule(arrays, actions)
    ensures |After(arrays, actions)| == |arrays|
    ensures |actions| + Left(After(arrays, actions), |arrays|) <= 2 * Words(arrays, |arrays|)
    decreases |actions|
  {
    if actions == [] {
      LeftAtFirst(arrays, |arrays|);
    } else {
      var front, a := actions[..|actions| - 1], actions[|actions| - 1];
      StepsBounded(arrays, front);
      ScheduleKeepsInv(arrays, front);
      var s := After(arrays, front);
      if a.Send? {
        SendKeeps(s[a.m]);
      }
      LeftBut(s, Take(s, a), |arrays|, a.m);
    }
  }

  /** A transfer makes at most two steps per word, and as long as the finish test fails some machine can
      send or something can be received. */
  lemma TransferEnds(arrays: seq<seq<nat>>, actions: seq<Action>)
    requires Schedule(arrays, actions)
    ensures |actions| <= 2 * Words(arrays, |arrays|)
    ensures !Finished(After(arrays, actions)) ==> exists a :: CanTake(After(arrays, actions), a)
  {
    StepsBounded(arrays, actions);
    ScheduleKeepsInv(arrays, actions);
    var s := After(arrays, actions);
    LeftIsNat(s, arrays, |arrays|);
    if m :| 0 <= m < |s| && |s[m].got| < |s[m].data| {
      assert CanTake(s, Send(m)) || CanTake(s, Receive(m));
    }
  }

  // ----- Messages and their buffers

  /** Bytes of a message: the machine id in 4, the length in 8, each word in 4. */
  function BytesOf(message: seq<nat>): nat
    requires |message| >= 2
  {
    4 + 8 + 4 * (|message| - 2)
  }

  // ----- The code of both ends

  /** serialize_dispatch_ids and serialize_dispatch_nghs: the next chunk, and the advanced count. */
  method SerializeDispatch(machineId: nat, dispatch: seq<nat>, num0: nat) returns (message: seq<nat>, num: nat)
    requires num0 < |dispatch|
    ensures var n := ChunkSize(|dispatch|, num0);
            num == num0 + n > num0 && message == [machineId, n] + dispatch[num0..num0 + n]
    ensures BytesOf(message) <= MAX_QUERYBUFFER_SIZE && (num < |dispatch| ==> BytesOf(message) + 4 > MAX_QUERYBUFFER_SIZE)
  {
    var maxTransNum := (MAX_QUERYBUFFER_SIZE - 4 - 8) / 4;
    if |dispatch| - num0 < maxTransNum {
      maxTransNum := |dispatch| - num0;
    }
    message := [machineId, maxTransNum];
    for i := 0 to maxTransNum
      invariant message == [machineId, maxTransNum] + dispatch[num0..num0 + i]
    {
      message := message + [dispatch[num0 + i]];
    }
    num := num0 + maxTransNum;
  }

  /** proc_dispatch_id and proc_dispatch_ngh: the chunk goes behind what is there. */
  method ProcDispatch(message: seq<nat>, collected: array<nat>, cnt0: nat) returns (cnt: nat)
    requires |message| >= 2 && |message| == 2 + message[1] && cnt0 + message[1] <= collected.Length
    modifies collected
    ensures cnt == cnt0 + message[1] && collected[..cnt] == old(collected[..cnt0]) + message[2..]
    ensures collected[cnt..] == old(collected[..])[cnt..]
  {
    var transNum := message[1];
    for i := 0 to transNum
      invariant forall j :: 0 <= j < cnt0 || cnt0 + i <= j < collected.Length ==> collected[j] == old(collected[j])
      invariant forall j :: cnt0 <= j < cnt0 + i ==> collected[j] == message[j - cnt0 + 2]
    {
      collected[cnt0 + i] := message[2 + i];
    }
    cnt := cnt0 + transNum;
    assert collected[cnt0..cnt] == message[2..];
    assert collected[..cnt] == collected[..cnt0] + collected[cnt0..cnt];
  }
}
