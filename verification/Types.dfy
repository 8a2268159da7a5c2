// The domain types shared by every component of the push gateway.
module Types {

  datatype SessionID = SessionID(name: string)

  // The name of one thread of control in the step machines.
  type Tid = nat

  datatype Option<+T> = None | Some(value: T)

  datatype Event = Event(sequence: int, topic: string, payload: string)

  // The lifecycle of a client connection, in the order it is passed through.
  datatype ConnState = Active | Suspected | Closing | Closed {

    // The check every delivery path makes before it touches the writer.
    predicate Accepting() {
      Active? || Suspected?
    }

    function Rank(): nat {
      match this
      case Active => 0
      case Suspected => 1
      case Closing => 2
      case Closed => 3
    }
  }

  ghost predicate NoDuplicates<T>(s: seq<T>) {
    forall i, j | 0 <= i < j < |s| :: s[i] != s[j]
  }
}
