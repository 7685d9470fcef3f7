/** A store entry (it/unitn/ds1/Resource.java) and its workspace copy
    (it/unitn/ds1/resources/WorkspaceResource.java). */
module Resources {

  /** The value/version pair a `Resource` holds at one moment. */
  datatype Snapshot = Snapshot(value: int, version: int)

  class Resource {
    var value: int
    var version: int

    constructor (value: int, version: int)
      ensures View() == Snapshot(value, version)
    {
      this.value := value;
      this.version := version;
    }

    /** The pair this resource holds now. */
    function View(): (s: Snapshot)
      reads this
      ensures s.value == value && s.version == version
    {
      Snapshot(value, version)
    }

    /** `setValue` changes the value and nothing else. */
    method SetValue(v: int)
      modifies this
      ensures View() == Snapshot(v, old(version))
    {
      value := v;
    }

    /** `setVersion` changes the version and nothing else. */
    method SetVersion(v: int)
      modifies this
      ensures View() == Snapshot(old(value), v)
    {
      version := v;
    }

    /** `clone`: a new object holding the same pair. */
    method Clone() returns (c: Resource)
      ensures fresh(c)
      ensures c.View() == View()
    {
      c := new Resource(value, version);
    }
  }

  /** A `Resource` copied at first touch plus a `changed` flag. Java makes it a
      subclass of `Resource`; here the copied resource is a part of it. */
  class WorkspaceResource {
    const resource: Resource
    var changed: bool

    /** Copies `source`'s value and version into a new resource. */
    constructor (source: Resource, changed: bool)
      ensures fresh(resource)
      ensures resource.View() == source.View()
      ensures this.changed == changed
    {
      resource := new Resource(source.value, source.version);
      this.changed := changed;
    }

    /** `setChanged` changes only the flag. */
    method SetChanged(c: bool)
      modifies this
      ensures changed == c
      ensures resource.View() == old(resource.View())
    {
      changed := c;
    }
  }

  /** Mutating a clone leaves the original as it was. */
  method MutateClone(original: Resource, v: int, w: int) returns (c: Resource)
    ensures fresh(c)
    ensures c.View() == Snapshot(v, w)
    ensures original.View() == old(original.View())
  {
    c := original.Clone();
    c.SetValue(v);
    c.SetVersion(w);
  }

  /** A workspace snapshot keeps the pair it copied when the source changes
      afterwards. */
  method SnapshotThenUpdateSource(source: Resource, v: int) returns (w: WorkspaceResource)
    modifies source
    ensures fresh(w) && fresh(w.resource)
    ensures w.resource.View() == old(source.View()) && !w.changed
    ensures source.View() == Snapshot(v, old(source.version))
  {
    w := new WorkspaceResource(source, false);
    source.SetValue(v);
  }
}
