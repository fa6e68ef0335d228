/** Shared vocabulary: optional values, results of store operations, and serial-id tables with column totals. */
module Prelude {
  datatype Option<+T> = None | Some(value: T)

  /** What a store operation returns: a value, or the error after which nothing has changed. */
  datatype Result<+T, +E> = Ok(value: T) | Err(error: E)

  /** A database table with a BIGSERIAL key: live rows by id, and the id the next insert receives. */
  datatype Table<T> = Table(rows: map<nat, T>, next: nat) {
    predicate Valid() {
      0 < next && forall id :: id in rows ==> 0 < id < next
    }

    function Insert(row: T): Table<T> {
      Table(rows[next := row], next + 1)
    }

    function Put(id: nat, row: T): Table<T> {
      Table(rows[id := row], next)
    }
  }

  /** What one id contributes to a column total. */
  function Share<T>(rows: map<nat, T>, w: (nat, T) -> int, id: nat): int {
    if id in rows then w(id, rows[id]) else 0
  }

  /** SUM of a column over the ids below `n`; rows outside the weight's WHERE clause weigh 0. */
  function Total<T>(rows: map<nat, T>, w: (nat, T) -> int, n: nat): int {
    if n == 0 then 0 else Total(rows, w, n - 1) + Share(rows, w, n - 1)
  }

  lemma {:induction false} TotalCongruent<S, T>(a: map<nat, S>, v: (nat, S) -> int, b: map<nat, T>, w: (nat, T) -> int,
      n: nat)
    requires forall id: nat :: id < n ==> Share(a, v, id) == Share(b, w, id)
    ensures Total(a, v, n) == Total(b, w, n)
  {
    if n > 0 { TotalCongruent(a, v, b, w, n - 1); }
  }

  /** Two tables that agree outside row `k` differ in their totals by exactly what row `k` contributes. */
  lemma {:induction false} TotalChange<S, T>(a: map<nat, S>, v: (nat, S) -> int, b: map<nat, T>, w: (nat, T) -> int,
      n: nat, k: nat)
    requires k < n
    requires forall id: nat :: id < n && id != k ==> Share(a, v, id) == Share(b, w, id)
    ensures Total(b, w, n) == Total(a, v, n) - Share(a, v, k) + Share(b, w, k)
  {
    if k == n - 1 {
      TotalCongruent(a, v, b, w, n - 1);
    } else {
      TotalChange(a, v, b, w, n - 1, k);
    }
  }

  /** Ids that no row uses do not matter. */
  lemma {:induction false} TotalGrow<T>(a: map<nat, T>, w: (nat, T) -> int, n: nat, m: nat)
    requires n <= m && forall id :: id in a ==> id < n
    ensures Total(a, w, m) == Total(a, w, n)
  {
    if n < m { TotalGrow(a, w, n, m - 1); }
  }

  lemma {:induction false} TotalNonNegative<T>(a: map<nat, T>, w: (nat, T) -> int, n: nat)
    requires forall id: nat :: id < n ==> Share(a, w, id) >= 0
    ensures Total(a, w, n) >= 0
    ensures forall id: nat :: id < n ==> Share(a, w, id) <= Total(a, w, n)
  {
    if n > 0 { TotalNonNegative(a, w, n - 1); }
  }

  lemma {:induction false} TotalZero<T>(a: map<nat, T>, w: (nat, T) -> int, n: nat)
    requires forall id: nat :: id < n ==> Share(a, w, id) == 0
    ensures Total(a, w, n) == 0
  {
    if n > 0 { TotalZero(a, w, n - 1); }
  }

  lemma {:induction false} TotalAdds<T>(a: map<nat, T>, u: (nat, T) -> int, v: (nat, T) -> int, w: (nat, T) -> int,
      n: nat)
    requires forall id: nat :: id < n ==> Share(a, w, id) == Share(a, u, id) + Share(a, v, id)
    ensures Total(a, w, n) == Total(a, u, n) + Total(a, v, n)
  {
    if n > 0 { TotalAdds(a, u, v, w, n - 1); }
  }

  lemma {:induction false} TotalMonotone<T>(a: map<nat, T>, v: (nat, T) -> int, b: map<nat, T>, w: (nat, T) -> int,
      n: nat)
    requires forall id: nat :: id < n ==> Share(a, v, id) <= Share(b, w, id)
    ensures Total(a, v, n) <= Total(b, w, n)
  {
    if n > 0 { TotalMonotone(a, v, b, w, n - 1); }
  }
}
