/** Written replies and their fences, as stream/store.ts keeps them on disk. A reply is one
    record file named by its conversation and request, and one fence file per request; every
    change is two writes in that order, and a process can die between them. Channels other than
    the browser's: its replies may carry claims too, but a later one replaces an earlier one as its
    next revision, which is not modelled. */
module ReplyStore {
  import opened Prelude
  import opened JobEngine

  type Conversation = string
  type RequestId = string

  datatype Key = Key(room: Conversation, req: RequestId)
  datatype Status = Held | Pending | Sent | Unknown | Failed
  datatype ClaimRef = ClaimRef(job: JobId, step: string, id: ActionId)
  datatype Reply = Reply(status: Status, claim: Option<ClaimRef>, text: string, chunks: seq<string>, recorded: bool, parked: bool)
  datatype Fence = Fence(status: Status, room: Conversation, chunks: seq<string>)
  datatype Store = Store(replies: map<Key, Reply>, fences: map<RequestId, Fence>)

  datatype WriteOutcome = Written | AlreadySent(chunks: seq<string>) | NotOwned | AlreadyPending | NeverRetried

  /** The fence: what a reply under this request id meets. */
  function Gate(store: Store, req: RequestId): WriteOutcome {
    if req !in store.fences then Written
    else
      match store.fences[req].status
      case Sent => AlreadySent(store.fences[req].chunks)
      case Pending => AlreadyPending
      case Held => AlreadyPending
      case Unknown => NeverRetried
      case Failed => Written
  }

  /** First write of a reply. Capturing a record that exists merges into it: the first body,
      and with it the first delivery, wins. */
  function Capture(store: Store, key: Key, reply: Reply): Store {
    if key in store.replies then store else store.(replies := store.replies[key := reply])
  }

  /** Second write of a reply. */
  function WriteFence(store: Store, key: Key, status: Status): Store {
    store.(fences := store.fences[key.req := Fence(status, key.room, [])])
  }

  /** The record a request's fence names. */
  function Target(store: Store, req: RequestId): Key
    requires req in store.fences
  {
    Key(store.fences[req].room, req)
  }

  predicate FencesNameReplies(store: Store) {
    forall req <- store.fences :: Target(store, req) in store.replies
  }

  /** First write of a settlement: the record the fence names, whichever that is. */
  function SettleRecord(store: Store, req: RequestId, status: Status, chunks: Option<seq<string>>): Store
    requires req in store.fences && Target(store, req) in store.replies
  {
    var key := Target(store, req);
    var reply := store.replies[key];
    store.(replies := store.replies[key := reply.(status := status, chunks := if chunks.Some? then chunks.value else reply.chunks)])
  }

  /** Second write of a settlement. */
  function SettleFence(store: Store, req: RequestId, status: Status, chunks: Option<seq<string>>): Store
    requires req in store.fences
  {
    var fence := store.fences[req];
    store.(fences := store.fences[req := fence.(status := status, chunks := if chunks.Some? then chunks.value else fence.chunks)])
  }

  function Settle(store: Store, req: RequestId, status: Status, chunks: Option<seq<string>>): Store
    requires req in store.fences && Target(store, req) in store.replies
  {
    SettleFence(SettleRecord(store, req, status, chunks), req, status, chunks)
  }

  function WriteReply(store: Store, key: Key, reply: Reply, owned: bool): (Store, WriteOutcome) {
    if !owned then (store, NotOwned)
    else if Gate(store, key.req) != Written then (store, Gate(store, key.req))
    else (WriteFence(Capture(store, key, reply), key, reply.status), Written)
  }

  class ReplyFiles {
    var replies: map<Key, Reply>
    var fences: map<RequestId, Fence>

    function View(): Store
      reads this
    {
      Store(replies, fences)
    }

    predicate Valid()
      reads this
    {
      FencesNameReplies(View())
    }

    constructor ()
      ensures Valid() && View() == Store(map[], map[])
    {
      replies, fences := map[], map[];
    }

    method Reply(key: Key, reply: Reply, owned: bool) returns (outcome: WriteOutcome)
      requires Valid()
      modifies this
      ensures Valid() && (View(), outcome) == WriteReply(old(View()), key, reply, owned)
    {
      if !owned {
        return NotOwned;
      }
      if key.req in fences {
        var fence := fences[key.req];
        if fence.status == Sent {
          return AlreadySent(fence.chunks);
        }
        if fence.status == Pending || fence.status == Held {
          return AlreadyPending;
        }
        if fence.status == Unknown {
          return NeverRetried;
        }
      }
      if key !in replies {
        replies := replies[key := reply];
      }
      fences := fences[key.req := Fence(reply.status, key.room, [])];
      return Written;
    }

    /** settleDelivery(): false when no reply was written under this request. */
    method SettleDelivery(req: RequestId, status: Status, chunks: Option<seq<string>>) returns (settled: bool)
      requires Valid()
      modifies this
      ensures Valid() && settled == (req in old(fences))
      ensures settled ==> Target(old(View()), req) in old(replies) && View() == Settle(old(View()), req, status, chunks)
      ensures !settled ==> View() == old(View())
    {
      if req !in fences {
        return false;
      }
      var fence := fences[req];
      var key := Key(fence.room, req);
      assert key == Target(View(), req);
      var reply := replies[key];
      replies := replies[key := reply.(status := status, chunks := if chunks.Some? then chunks.value else reply.chunks)];
      fences := fences[req := fence.(status := status, chunks := if chunks.Some? then chunks.value else fence.chunks)];
      return true;
    }

    /** annotate(): the record is read again and marked. */
    method MarkRecorded(key: Key)
      requires Valid() && key in replies
      modifies this
      ensures Valid() && fences == old(fences)
      ensures replies == old(replies)[key := old(replies)[key].(recorded := true)]
    {
      var reply := replies[key];
      replies := replies[key := reply.(recorded := true)];
    }

    method Park(key: Key)
      requires Valid() && key in replies
      modifies this
      ensures Valid() && fences == old(fences)
      ensures replies == old(replies)[key := old(replies)[key].(parked := true)]
    {
      var reply := replies[key];
      replies := replies[key := reply.(parked := true)];
    }

    method ReleaseHeldReply(req: RequestId) returns (released: bool)
      requires Valid()
      modifies this
      ensures Valid() && released == (req in old(fences) && old(fences)[req].status == Held)
      ensures released ==> Target(old(View()), req) in old(replies) && View() == Settle(old(View()), req, Pending, None)
      ensures !released ==> View() == old(View())
    {
      if req !in fences || fences[req].status != Held {
        return false;
      }
      released := SettleDelivery(req, Pending, None);
    }
  }

  /** A reply accepted by the fence will be found in the state it was written at exactly when no
      record of that conversation and request exists in another state: a retry after a failed
      send, in the same conversation, is accepted and its record stays failed. */
  lemma AcceptedIsQueuedIff(store: Store, key: Key, reply: Reply)
    requires Gate(store, key.req) == Written
    ensures var (after, outcome) := WriteReply(store, key, reply, true);
            && outcome == Written && key in after.replies
            && after.fences[key.req] == Fence(reply.status, key.room, [])
            && (after.replies[key].status == reply.status <==> key !in store.replies || store.replies[key].status == reply.status)
  {
  }
}
