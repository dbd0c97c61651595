/**
 * The entity store the handlers read and write, as an in-memory map from a
 * key (the chat id) to the stored fields. Loading gives a fresh entity
 * object and `put` stores a snapshot of one, as a keyed record store does.
 */
module Store {
  import opened Json
  import opened Users

  /** Storing twice under one key leaves only the second value. */
  lemma PutTwice(m: map<Value, UserRecord>, k: Value, a: UserRecord, b: UserRecord)
    ensures m[k := a][k := b] == m[k := b]
  {
  }

  class Datastore {
    var entities: map<Value, UserRecord>

    constructor (entities: map<Value, UserRecord>)
      ensures this.entities == entities
    {
      this.entities := entities;
    }

    /** `User.get_or_insert(key)`: the stored entity, or a new one with the defaults, which is stored. */
    method GetOrInsert(key: Value) returns (u: User)
      modifies this
      ensures fresh(u) && u.key == key
      ensures u.Record() == if key in old(entities) then old(entities)[key] else NewRecord()
      ensures entities == old(entities)[key := u.Record()]
    {
      if key in entities {
        u := new User.Load(key, entities[key]);
      } else {
        u := new User(key);
        entities := entities[key := u.Record()];
      }
    }

    /** `key.get()` for a key the store holds. */
    method Get(key: Value) returns (u: User)
      requires key in entities
      ensures fresh(u) && u.key == key && u.Record() == entities[key]
    {
      u := new User.Load(key, entities[key]);
    }

    /** `user.put()`. */
    method Put(u: User)
      modifies this
      ensures entities == old(entities)[u.key := u.Record()]
    {
      entities := entities[u.key := u.Record()];
    }
  }
}
