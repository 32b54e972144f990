/** Identifiers, JSON values and the small result types every other module uses. */
module Values {

  /** A UUID. The nil UUID is 0; every generated UUID is a fresh positive number. */
  type Uuid = nat

  const NIL: Uuid := 0

  datatype Option<+T> = None | Some(value: T)

  /** A JSON number: an integer literal or a floating-point one. Rounding is not modelled. */
  datatype Number = Int(i: int) | Float(r: real) {
    function AsReal(): real {
      match this
      case Int(i) => i as real
      case Float(r) => r
    }
  }

  datatype Value =
    | Null
    | Bool(b: bool)
    | Num(num: Number)
    | Str(s: string)
    | Arr(items: seq<Value>)
    | Obj(fields: map<string, Value>)

  type Variables = map<string, Value>

  /** Errors of the engine API, with the payload a caller can tell apart. */
  datatype EngineError =
    | InvalidDefinition
    | NoSuchNode(node: string)
    | NoSuchDefinition(definition: Uuid)
    | NoSuchInstance(inst: Uuid)
    | TaskNotPending(task: Uuid)
    | AlreadyCompleted
    | NoMatchingCondition(gateway: string)
    | ServiceTaskNotFound(task: Uuid)
    | ServiceTaskLocked(task: Uuid, holder: string)
    | ServiceTaskNotLocked(task: Uuid)
    | DefinitionHasInstances(count: nat)
    | OrphanedToken(node: string)
    | PersistenceError
    | ScriptError
    | ExecutionLimitExceeded(inst: Uuid)
    | InstanceSuspended(inst: Uuid)

  datatype Result<+T> = Ok(value: T) | Err(error: EngineError)

  /** The result of an operation that returns no value. */
  datatype Outcome = Done | Failed(error: EngineError)

  ghost predicate NoDup<T>(s: seq<T>) {
    forall i, j :: 0 <= i < j < |s| ==> s[i] != s[j]
  }

  /** `order` lists the members of `keys`, each once: the iteration order of a hash map. */
  ghost predicate Enumerates<T>(order: seq<T>, keys: set<T>) {
    NoDup(order) && (forall x <- order :: x in keys) && (forall x <- keys :: x in order)
  }

  lemma Associative<T>(a: seq<T>, b: seq<T>, c: seq<T>)
    ensures (a + b) + c == a + (b + c)
  {}
}
