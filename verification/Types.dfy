/** The values the consensus kernel exchanges with the world: log entries, messages and actions. */
module Types {
  type NodeId = nat
  type Term = nat
  type Index = nat

  newtype byte = x: int | 0 <= x < 256
  type Bytes = seq<byte>

  datatype Option<+T> = None | Some(value: T) {
    function UnwrapOr(default: T): T {
      if Some? then value else default
    }
  }

  datatype Entry = Entry(index: Index, term: Term, command: Bytes)

  const SENTINEL := Entry(0, 0, [])

  /** Index and term of the last entry a snapshot covers. */
  datatype Meta = Meta(index: Index, term: Term)

  /** A snapshot's payload is not modelled, so `InstallSnapshot` carries only its position. */
  datatype Kind =
    | RequestVote(lastIndex: Index, lastTerm: Term)
    | RequestVoteResponse(granted: bool)
    | PreVote(lastIndex: Index, lastTerm: Term)
    | PreVoteResponse(granted: bool)
    | AppendEntries(prevIndex: Index, prevTerm: Term, entries: seq<Entry>, leaderCommit: Index)
    | AppendEntriesResponse(success: bool, conflictTerm: Option<Term>, conflictIndex: Option<Index>)
    | InstallSnapshot(snapIndex: Index, snapTerm: Term, done: bool)
    | InstallSnapshotResponse
    | ClientRequest(command: Bytes)
    | ClientResponse(success: bool, hint: Option<NodeId>)
  {
    predicate PreVoteMsg() { PreVote? || PreVoteResponse? }
    predicate ClientMsg() { ClientRequest? || ClientResponse? }
  }

  datatype Message = Message(from: NodeId, to: NodeId, term: Term, kind: Kind)

  datatype Action =
    | Send(msg: Message)
    | AppendLog(entries: seq<Entry>)
    | TruncateAndAppend(from: Index, entries: seq<Entry>)
    | PersistHardState(term: Term, voted: Option<NodeId>)
    | Apply(entries: seq<Entry>)
    | PersistSnapshot(index: Index, term: Term)

  /** `es` are consecutive entries whose first index is `start`. */
  predicate ContiguousFrom(es: seq<Entry>, start: Index) {
    forall k | 0 <= k < |es| :: es[k].index == start + k
  }

  /** An AppendEntries that carries consecutive entries right after `prevIndex`. The handlers take any
      message; runs that compact sanely never send another kind (`Consequences.MessagesValid`). */
  predicate ValidMsg(m: Message) {
    m.kind.AppendEntries? ==> ContiguousFrom(m.kind.entries, m.kind.prevIndex + 1)
  }

  function Prev(i: Index): Index {
    if i == 0 then 0 else i - 1
  }
}
