/**
  The migration stage that loads every persisted metadata record and keys
  the list by name into the shared context before continuing.
 */
module LoadMetadata {
  import opened Values
  import opened Migration

  /** The loaded list keyed by name; for a repeated name the later record
      takes the key. */
  function KeyByName(ms: seq<Metadata>): (r: map<string, Metadata>)
    ensures forall m :: m in ms ==> m.name in r
    ensures forall k :: k in r ==> r[k].name == k && r[k] in ms
    ensures forall i :: 0 <= i < |ms| && (forall j :: i < j < |ms| ==> ms[j].name != ms[i].name) ==>
      r[ms[i].name] == ms[i]
    decreases |ms|
  {
    if ms == [] then map[]
    else
      var init, last := ms[..|ms| - 1], ms[|ms| - 1];
      var r := KeyByName(init)[last.name := last];
      assert forall m :: m in ms ==> m in init || m == last;
      assert forall i :: 0 <= i < |init| ==> init[i] == ms[i];
      r
  }

  /** `handle(data, next)`: `loaded` is what the metadata store returns for
      all records. */
  method Handle(data: Data, loaded: seq<Metadata>, next: Next) returns (r: StageResult)
    modifies data, next
    ensures data.metadata == KeyByName(loaded)
    ensures data.declarations == old(data.declarations)
    ensures next.received == old(next.received) + [data]
    ensures r == Returned(next.reply)
  {
    data.metadata := KeyByName(loaded);
    var v := next.Invoke(data);
    r := Returned(v);
  }
}
