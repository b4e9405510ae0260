/**
 * The database handle over an abstract engine: an in-memory ordered map,
 * snapshots that freeze a copy of it, and read options that bind reads to a
 * snapshot or to the live map. Whether the engine itself fails (I/O,
 * corruption) is not computed here: each fallible operation takes the
 * engine's status as the parameter `fault`.
 */
module Database {
  import opened Wrappers
  import opened ByteStrings
  import opened ErrorChannel
  import opened WriteBatches
  import opened Cursor
  import opened Config

  /** A snapshot handle: the map as it was when the snapshot was taken. */
  class Snapshot {
    const view: map<Bytes, Bytes>

    constructor (view: map<Bytes, Bytes>)
      ensures this.view == view
    {
      this.view := view;
    }
  }

  class ReadOptions {
    var verifyChecksums: bool
    var fillCache: bool
    var snapshot: Snapshot?

    /** A new handle reads the live map; the two flags start at the engine's defaults, given here. */
    constructor (verifyChecksums: bool, fillCache: bool)
      ensures this.verifyChecksums == verifyChecksums && this.fillCache == fillCache
      ensures snapshot == null
    {
      this.verifyChecksums := verifyChecksums;
      this.fillCache := fillCache;
      snapshot := null;
    }

    method SetVerifyChecksums(v: byte)
      modifies this
      ensures verifyChecksums == (v != 0)
      ensures fillCache == old(fillCache) && snapshot == old(snapshot)
    {
      verifyChecksums := v != 0;
    }

    method SetFillCache(v: byte)
      modifies this
      ensures fillCache == (v != 0)
      ensures verifyChecksums == old(verifyChecksums) && snapshot == old(snapshot)
    {
      fillCache := v != 0;
    }

    /** Binds reads to snapshot s, or back to the live map when s is null. */
    method SetSnapshot(s: Snapshot?)
      modifies this
      ensures snapshot == s
      ensures verifyChecksums == old(verifyChecksums) && fillCache == old(fillCache)
    {
      snapshot := s;
    }
  }

  class Db {
    var contents: map<Bytes, Bytes>
    /** The snapshots created and not yet released. */
    var snapshots: set<Snapshot>

    /** A freshly created, empty database. */
    constructor ()
      ensures contents == map[] && snapshots == {}
    {
      contents := map[];
      snapshots := {};
    }

    /** Reads through these options are allowed: they name no released snapshot. */
    predicate Readable(options: ReadOptions)
      reads this, options
    {
      options.snapshot == null || options.snapshot in snapshots
    }

    /** The map a read through these options sees. */
    function View(options: ReadOptions): map<Bytes, Bytes>
      reads this, options
    {
      if options.snapshot == null then contents else options.snapshot.view
    }

    method Put(options: WriteOptions, key: Bytes, val: Bytes, fault: Status, err: ErrSlot)
      modifies this, err
      ensures err.message == AfterCall(old(err.message), fault)
      ensures contents == if fault.Ok? then old(contents)[key := val] else old(contents)
      ensures snapshots == old(snapshots)
    {
      if fault.Ok? {
        contents := contents[key := val];
      }
      err.Save(fault);
    }

    method Delete(options: WriteOptions, key: Bytes, fault: Status, err: ErrSlot)
      modifies this, err
      ensures err.message == AfterCall(old(err.message), fault)
      ensures contents == if fault.Ok? then old(contents) - {key} else old(contents)
      ensures snapshots == old(snapshots)
    {
      if fault.Ok? {
        contents := contents - {key};
      }
      err.Save(fault);
    }

    /** Applies every record of the batch, in order, as one atomic update. */
    method Write(options: WriteOptions, batch: WriteBatch, fault: Status, err: ErrSlot)
      modifies this, err
      ensures err.message == AfterCall(old(err.message), fault)
      ensures contents == if fault.Ok? then Apply(old(contents), batch.records) else old(contents)
      ensures snapshots == old(snapshots)
    {
      if fault.Ok? {
        var updated := batch.Iterate(contents, Insert, Erase);
        ApplyIsReplay(contents, batch.records);
        contents := updated;
      }
      err.Save(fault);
    }

    /**
     * Three-way outcome: found gives a copy of the value and its length;
     * not found gives NULL, length 0 and an untouched slot; an engine failure
     * gives NULL, length 0 and the failure's message in the slot.
     */
    method Get(options: ReadOptions, key: Bytes, fault: Status, err: ErrSlot) returns (val: Option<Bytes>, vallen: nat)
      requires Readable(options)
      modifies err
      ensures err.message == AfterCall(old(err.message), fault)
      ensures val == if fault.Ok? then Lookup(View(options), key) else None
      ensures vallen == if val.Some? then |val.value| else 0
    {
      var view := View(options);
      if fault.Ok? && key in view {
        val := Some(view[key]);
        vallen := |view[key]|;
      } else {
        val := None;
        vallen := 0;
      }
      err.Save(fault);
    }

    method CreateSnapshot() returns (s: Snapshot)
      modifies this
      ensures fresh(s) && s.view == contents
      ensures contents == old(contents) && snapshots == old(snapshots) + {s}
    {
      s := new Snapshot(contents);
      snapshots := snapshots + {s};
    }

    /** Releases a live snapshot; it may not be used afterwards. */
    method ReleaseSnapshot(s: Snapshot)
      requires s in snapshots
      modifies this
      ensures contents == old(contents) && snapshots == old(snapshots) - {s}
    {
      snapshots := snapshots - {s};
    }

    /** A new iterator over what these options would read, not yet positioned. */
    method NewIterator(options: ReadOptions) returns (it: Iterator)
      requires Readable(options)
      ensures fresh(it) && it.Valid() && it.view == View(options) && !it.valid
    {
      it := new Iterator(View(options));
    }

    /**
     * property_value: NULL for a name the engine does not recognise, else a
     * copy of the property's value. The engine's property table is a parameter.
     */
    method PropertyValue(name: Bytes, properties: map<Bytes, Bytes>) returns (r: Option<Bytes>)
      ensures r.None? <==> name !in properties
      ensures r.Some? ==> r.value == properties[name]
    {
      r := Lookup(properties, name);
    }

    /** compact_range: reorganises storage only; no key or value changes. */
    method CompactRange(start: Option<Bytes>, limit: Option<Bytes>)
      ensures contents == old(contents) && snapshots == old(snapshots)
    {
    }
  }

  /**
   * Any two nonzero bool bytes configure every handle identically: each bool
   * setter of the options, read options and write options sees only whether
   * its byte is zero.
   */
  method NonzeroBoolBytesAgree(defaults: Settings, v: byte, w: byte) returns (same: bool)
    requires v != 0 && w != 0
    ensures same
  {
    var o1 := new Options(defaults);
    var o2 := new Options(defaults);
    o1.SetCreateIfMissing(v);
    o1.SetErrorIfExists(v);
    o1.SetParanoidChecks(v);
    o2.SetCreateIfMissing(w);
    o2.SetErrorIfExists(w);
    o2.SetParanoidChecks(w);
    var r1 := new ReadOptions(false, false);
    var r2 := new ReadOptions(false, false);
    r1.SetVerifyChecksums(v);
    r1.SetFillCache(v);
    r2.SetVerifyChecksums(w);
    r2.SetFillCache(w);
    var w1 := new WriteOptions(false);
    var w2 := new WriteOptions(false);
    w1.SetSync(v);
    w2.SetSync(w);
    same := && o1.settings == o2.settings
            && r1.verifyChecksums == r2.verifyChecksums && r1.fillCache == r2.fillCache
            && w1.sync == w2.sync;
  }
}
