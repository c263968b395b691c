/** Shared vocabulary: optional values, identifiers, and the one clock that the Go processes and Postgres are
    assumed to share. */
module Prelude {

  /** A nullable column, a Go pointer, or a query that may return `sql.ErrNoRows`. */
  datatype Option<+T> = None | Some(value: T)

  /** Instants and durations, in nanoseconds as in Go. */
  type Time = int

  const MINUTE: Time := 60_000_000_000

  type ReportId = nat
  type JobId = nat
  type TodoId = nat

  /** An identifier outside a finite set: what `uuid.New` is relied on to deliver. */
  lemma FreshId(used: set<nat>) returns (id: nat)
    ensures id !in used
  {
    id := 0;
    var rest := used;
    while rest != {}
      invariant rest <= used
      invariant forall u :: u in used && u !in rest ==> u < id
    {
      var u :| u in rest;
      id := if id <= u then u + 1 else id;
      rest := rest - {u};
    }
  }
}
