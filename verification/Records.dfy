/** What the components store in ZooKeeper and exchange with each other. */
module Records {
  import opened Lifecycle

  type Id = string

  datatype MirrorConfig = MirrorConfig(enabled: bool, ratio: real, target: Id, active: Id, session: Id)

  datatype InstanceRecord = InstanceRecord(addr: string, state: State, role: string, startedAt: int)

  /** The configuration a ramp of session `id` writes at a given share of the traffic. */
  function RampConfig(id: Id, target: Id, active: Id, ratio: real): MirrorConfig {
    MirrorConfig(true, ratio, target, active, id)
  }

  /** The configuration that completes session `id`: the target is active and nothing is mirrored. */
  function PromoteConfig(id: Id, target: Id): MirrorConfig {
    MirrorConfig(false, 0.0, target, target, id)
  }

  datatype Status = Running | Holding | Completed

  datatype Session = Session(id: Id, target: Id, active: Id, readyAfter: int, status: Status)

  /** The sessions after the ramp of `id` has ended; one that was deleted meanwhile is not brought back. */
  function Held(sessions: map<Id, Session>, id: Id): map<Id, Session> {
    if id in sessions then sessions[id := sessions[id].(status := Holding)] else sessions
  }

  function Released(s: Session): Session {
    s.(active := s.target, status := Completed)
  }

  /** An instance node with the version that conditional writes are checked against. */
  datatype Znode = Znode(rec: InstanceRecord, version: nat)

  /** A state update in progress: it reads the record, then writes it back at the version read. */
  datatype Update = ReadRecord | WriteRecord(seen: InstanceRecord, version: nat)

  datatype Option<T> = None | Some(value: T)

  /** The node after one step of an update to state `st`; `up` is false when the call does not get through. */
  function Stored(n: Znode, u: Update, st: State, up: bool): Znode {
    if u.WriteRecord? && up && u.version == n.version
    then Znode(u.seen.(state := st), n.version + 1)
    else n
  }

  /** What is left of the update after that step. */
  function Rest(n: Znode, u: Update, up: bool): Option<Update> {
    if u.ReadRecord? && up then Some(WriteRecord(n.rec, n.version)) else None
  }
}
