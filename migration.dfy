/**
  What the migration stages share: the mutable context handed from stage to
  stage, and the continuation through which a stage hands it on.
 */
module Migration {
  import opened Values
  import Registrar

  /** The shared context: the declarations by name and the persisted
      metadata (keyed by name once it has been loaded). */
  class Data {
    var declarations: map<string, Registrar.Declaration>
    var metadata: map<string, Metadata>

    constructor (declarations: map<string, Registrar.Declaration>, metadata: map<string, Metadata>)
      ensures this.declarations == declarations && this.metadata == metadata
    {
      this.declarations := declarations;
      this.metadata := metadata;
    }
  }

  /** What a stage hands back: the continuation's result, or a failure it
      raised instead of continuing. */
  datatype StageResult = Returned(value: Mixed) | Raised(failure: Failure)

  /** The rest of the pipeline as one stage sees it: it records every
      context it is invoked with and answers with its own result. */
  class Next {
    /** The contexts this continuation was invoked with; a record for the
        contracts only. */
    ghost var received: seq<Data>
    const reply: Mixed

    constructor (reply: Mixed)
      ensures received == [] && this.reply == reply
    {
      received := [];
      this.reply := reply;
    }

    method Invoke(data: Data) returns (r: Mixed)
      modifies this
      ensures received == old(received) + [data] && r == reply
    {
      received := received + [data];
      r := reply;
    }
  }
}
