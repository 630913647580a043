/** The abstract object both lock backends implement: one lease register with
    guarded atomic operations. A register is free, or held by an owner until a
    deadline. */
module LeaseRegister {

  datatype Register = Free | Held(owner: string, until: int)

  /** `Acquire` is create, renew and steal in one: the writer read its clock as
      `now` and asks for the register until `until`. `Expire` is a backend clearing
      an outdated register by itself, at its own clock reading `now`. */
  datatype Op =
    | Acquire(owner: string, now: int, until: int)
    | Release(owner: string)
    | Expire(now: int)

  /** When an operation may happen. A held register may be taken by its owner, who
      never shortens it, or by anyone whose clock reading has reached the deadline,
      who moves the deadline forward. Only the owner may release it. */
  predicate Legal(r: Register, op: Op) {
    match op
    case Acquire(owner, now, until) =>
      || r.Free?
      || (r.owner == owner && r.until <= until)
      || (r.owner != owner && r.until <= now && r.until < until)
    case Release(owner) => r.Held? && r.owner == owner
    case Expire(now) => r.Held? && r.until < now
  }

  function Apply(r: Register, op: Op): Register {
    match op
    case Acquire(owner, _, until) => Held(owner, until)
    case Release(_) => Free
    case Expire(_) => Free
  }

  predicate LegalRun(r: Register, ops: seq<Op>)
    decreases |ops|
  {
    ops == [] || (Legal(r, ops[0]) && LegalRun(Apply(r, ops[0]), ops[1..]))
  }

  function Run(r: Register, ops: seq<Op>): Register
    decreases |ops|
  {
    if ops == [] then r else Run(Apply(r, ops[0]), ops[1..])
  }

  lemma {:induction false} RunConcat(r: Register, a: seq<Op>, b: seq<Op>)
    requires LegalRun(r, a) && LegalRun(Run(r, a), b)
    ensures LegalRun(r, a + b) && Run(r, a + b) == Run(Run(r, a), b)
    decreases |a|
  {
    if a == [] {
      assert a + b == b;
    } else {
      RunConcat(Apply(r, a[0]), a[1..], b);
      assert (a + b)[1..] == a[1..] + b;
    }
  }

  /** While nobody releases the register, its deadline never moves back, and it
      moves forward strictly whenever the holder at the end is not the holder at
      the start. */
  lemma {:induction false} DeadlineOnlyGrows(r: Register, ops: seq<Op>)
    requires r.Held? && LegalRun(r, ops)
    requires forall i :: 0 <= i < |ops| ==> ops[i].Acquire?
    ensures Run(r, ops).Held? && r.until <= Run(r, ops).until
    ensures Run(r, ops).owner != r.owner ==> r.until < Run(r, ops).until
    decreases |ops|
  {
    if ops != [] {
      DeadlineOnlyGrows(Apply(r, ops[0]), ops[1..]);
    }
  }
}
