/** What travels on the channels of the execution DAG (dozer-core/src/executor_operation.rs). */
module Messages {
  import opened Wrappers

  /** The payload of an operation. Neither the receiver loop nor the forwarder looks inside it. */
  type Data(!new, ==)

  /** What an epoch carries besides its id: source states, checkpoint writer, decision instant. */
  type EpochInfo(!new, ==)

  datatype Epoch = Epoch(id: nat, info: EpochInfo)

  datatype Snapshot = Started(connection: string) | Done(connection: string, id: Option<nat>)

  /** `tag` is bookkeeping of the model: the id of the source epoch during which the operation,
      or the source operation that caused it, was sent. No step reads it. */
  datatype Message =
    | Op(data: Data, tag: nat)
    | Snapshotting(event: Snapshot, tag: nat)
    | Commit(epoch: Epoch)
    | Terminate
  {
    predicate Payload?() {
      Op? || Snapshotting?
    }
  }
}
