/** The key-value store the lock is built on: the four atomic primitives
    SETNX, GET, GETSET and DEL over string keys holding integer timestamps,
    plus the writes another client may make between two of ours. */
module KeyValue {
  import opened Outcomes

  type Db = map<string, int>

  /** GET on a map: the stored value, or None when the key is absent. */
  function Lookup(db: Db, key: string): (v: Option<int>)
    ensures v.Some? <==> key in db
    ensures v.Some? ==> v.value == db[key]
  {
    if key in db then Some(db[key]) else None
  }

  /** `.to_i` on a reply: an absent key (nil) reads as 0. */
  function ToI(v: Option<int>): (n: int)
    ensures v.None? ==> n == 0
    ensures v.Some? ==> n == v.value
  {
    match v
    case None => 0
    case Some(n) => n
  }

  /** A write made by another client: nothing, a SET, or a DEL of the key. */
  datatype Edit = Keep | Put(value: int) | Remove

  function ApplyEdit(db: Db, key: string, e: Edit): (r: Db)
    ensures forall k :: k != key ==> Lookup(r, k) == Lookup(db, k)
    ensures e.Keep? ==> r == db
    ensures e.Put? ==> Lookup(r, key) == Some(e.value)
    ensures e.Remove? ==> key !in r
  {
    match e
    case Keep => db
    case Put(v) => db[key := v]
    case Remove => db - {key}
  }

  class Store {
    var data: Db

    constructor (initial: Db)
      ensures data == initial
    {
      data := initial;
    }

    /** SETNX: sets the key only if it is absent, and says whether it did. */
    method SetNx(key: string, value: int) returns (wasSet: bool)
      modifies this
      ensures wasSet <==> key !in old(data)
      ensures data == if wasSet then old(data)[key := value] else old(data)
    {
      wasSet := key !in data;
      if wasSet {
        data := data[key := value];
      }
    }

    /** GET: reads the key without changing anything. */
    method Get(key: string) returns (v: Option<int>)
      ensures v.Some? <==> key in data
      ensures v.Some? ==> v.value == data[key]
    {
      v := Lookup(data, key);
    }

    /** GETSET: writes the key and returns what it held before. */
    method GetSet(key: string, value: int) returns (prev: Option<int>)
      modifies this
      ensures prev == Lookup(old(data), key)
      ensures data == old(data)[key := value]
    {
      prev := Lookup(data, key);
      data := data[key := value];
    }

    /** DEL: removes the key. */
    method Del(key: string)
      modifies this
      ensures data == old(data) - {key}
    {
      data := data - {key};
    }

    /** Another client's write to the key, landing between two of ours. */
    method Apply(key: string, e: Edit)
      modifies this
      ensures data == ApplyEdit(old(data), key, e)
    {
      data := ApplyEdit(data, key, e);
    }
  }
}
