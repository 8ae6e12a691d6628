/** The part of Redis that the control plane uses: the PROCESS_ keys, the two families of sets, the records. */
module RedisStore {
  import opened Bytes

  datatype SetKey = SessionsAlive(id: Text) | SessionsSwapped(id: Text)

  class Redis {
    var names: set<Text>
    var alive: set<(Text, Text)>
    var swapped: set<(Text, Text)>
    var records: map<Text, Text>

    constructor ()
      ensures names == {} && alive == {} && swapped == {} && records == map[]
    {
      names, alive, swapped, records := {}, {}, {}, map[];
    }

    predicate HasProcess(id: Text)
      reads this
    {
      id in names
    }

    method SetProcess(id: Text)
      modifies this`names
      ensures names == old(names) + {id}
    {
      names := names + {id};
    }

    predicate Member(key: SetKey, member: Text)
      reads this
    {
      match key
      case SessionsAlive(id) => (id, member) in alive
      case SessionsSwapped(id) => (id, member) in swapped
    }

    method Sadd(key: SetKey, member: Text)
      modifies this`alive, this`swapped
      ensures alive == if key.SessionsAlive? then old(alive) + {(key.id, member)} else old(alive)
      ensures swapped == if key.SessionsSwapped? then old(swapped) + {(key.id, member)} else old(swapped)
    {
      match key
      case SessionsAlive(id) => alive := alive + {(id, member)};
      case SessionsSwapped(id) => swapped := swapped + {(id, member)};
    }

    /** How many members were removed: of any number of concurrent callers one sees a 1. */
    method Srem(key: SetKey, member: Text) returns (count: nat)
      modifies this`alive, this`swapped
      ensures count == if old(Member(key, member)) then 1 else 0
      ensures alive == if key.SessionsAlive? then old(alive) - {(key.id, member)} else old(alive)
      ensures swapped == if key.SessionsSwapped? then old(swapped) - {(key.id, member)} else old(swapped)
    {
      count := if Member(key, member) then 1 else 0;
      match key
      case SessionsAlive(id) => alive := alive - {(id, member)};
      case SessionsSwapped(id) => swapped := swapped - {(id, member)};
    }

    method Get(session: Text) returns (value: Option<Text>)
      ensures value == if session in records then Some(records[session]) else None
    {
      value := if session in records then Some(records[session]) else None;
    }

    method Set(session: Text, value: Text)
      modifies this`records
      ensures records == old(records)[session := value]
    {
      records := records[session := value];
    }
  }
}
