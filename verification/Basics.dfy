/** Values shared by every component model. */
module Basics {

  datatype Option<+T> = None | Some(value: T)

  datatype Result<+T, +E> = Ok(value: T) | Err(error: E)

  type u8 = x: nat | x < 0x100
  type u16 = x: nat | x < 0x1_0000
  type u32 = x: nat | x < 0x1_0000_0000
  type u64 = x: nat | x < 0x1_0000_0000_0000_0000

  function Min(a: nat, b: nat): nat {
    if a <= b then a else b
  }
}

/** Runs of a small-step machine given by a partial step function. */
module Runs {
  import opened Basics

  /** `acts`, taken one after the other from `s`, are all enabled and lead to `t`. */
  ghost predicate Reaches<S(!new), A(!new)>(next: (S, A) -> Option<S>, s: S, acts: seq<A>, t: S)
    decreases |acts|
  {
    if acts == [] then s == t
    else next(s, acts[0]).Some? && Reaches(next, next(s, acts[0]).value, acts[1..], t)
  }

  ghost predicate Inductive<S(!new), A(!new)>(next: (S, A) -> Option<S>, inv: S -> bool) {
    forall s, a :: inv(s) && next(s, a).Some? ==> inv(next(s, a).value)
  }

  lemma {:induction false} InvariantHolds<S(!new), A(!new)>(
    next: (S, A) -> Option<S>, inv: S -> bool, s: S, acts: seq<A>, t: S)
    requires Inductive(next, inv) && inv(s) && Reaches(next, s, acts, t)
    ensures inv(t)
    decreases |acts|
  {
    if acts == [] {
    } else {
      InvariantHolds(next, inv, next(s, acts[0]).value, acts[1..], t);
    }
  }

  /** Two runs end to end are a run. */
  lemma {:induction false} Append<S(!new), A(!new)>(
    next: (S, A) -> Option<S>, s: S, first: seq<A>, t: S, second: seq<A>, u: S)
    requires Reaches(next, s, first, t) && Reaches(next, t, second, u)
    ensures Reaches(next, s, first + second, u)
    decreases |first|
  {
    if first == [] {
      assert first + second == second;
    } else {
      Append(next, next(s, first[0]).value, first[1..], t, second, u);
      assert (first + second)[1..] == first[1..] + second;
    }
  }

  lemma Prepend<S(!new), A(!new)>(next: (S, A) -> Option<S>, s: S, a: A, rest: seq<A>, t: S)
    requires next(s, a).Some? && Reaches(next, next(s, a).value, rest, t)
    ensures Reaches(next, s, [a] + rest, t)
  {
    assert ([a] + rest)[1..] == rest;
  }

  /** Some run leads from `s` to `t`. */
  ghost predicate Leads<S(!new), A(!new)>(next: (S, A) -> Option<S>, s: S, t: S) {
    exists acts :: Reaches(next, s, acts, t)
  }

  lemma OneLeads<S(!new), A(!new)>(next: (S, A) -> Option<S>, s: S, a: A, t: S)
    requires next(s, a) == Some(t)
    ensures Leads(next, s, t)
  {
    Prepend(next, s, a, [], t);
  }

  lemma LeadsOn<S(!new), A(!new)>(next: (S, A) -> Option<S>, s: S, t: S, u: S)
    requires Leads(next, s, t) && Leads(next, t, u)
    ensures Leads(next, s, u)
  {
    var first, second :| Reaches(next, s, first, t) && Reaches(next, t, second, u);
    Append(next, s, first, t, second, u);
  }

  /** One step more. */
  lemma LeadsFurther<S(!new), A(!new)>(next: (S, A) -> Option<S>, s: S, t: S, a: A, u: S)
    requires Leads(next, s, t) && next(t, a) == Some(u)
    ensures Leads(next, s, u)
  {
    OneLeads(next, t, a, u);
    LeadsOn(next, s, t, u);
  }

  lemma TwoSteps<S(!new), A(!new)>(next: (S, A) -> Option<S>, s: S, a: A, t: S, b: A, u: S)
    requires next(s, a) == Some(t) && next(t, b) == Some(u)
    ensures Leads(next, s, u)
  {
    OneLeads(next, s, a, t);
    LeadsFurther(next, s, t, b, u);
  }

  lemma ThreeSteps<S(!new), A(!new)>(next: (S, A) -> Option<S>, s: S, a: A, t: S, b: A, u: S, c: A, v: S)
    requires next(s, a) == Some(t) && next(t, b) == Some(u) && next(u, c) == Some(v)
    ensures Leads(next, s, v)
  {
    TwoSteps(next, s, a, t, b, u);
    LeadsFurther(next, s, u, c, v);
  }

  lemma FourSteps<S(!new), A(!new)>(next: (S, A) -> Option<S>, s: S, a: A, t: S, b: A, u: S, c: A, v: S, d: A, w: S)
    requires next(s, a) == Some(t) && next(t, b) == Some(u) && next(u, c) == Some(v) && next(v, d) == Some(w)
    ensures Leads(next, s, w)
  {
    TwoSteps(next, s, a, t, b, u);
    TwoSteps(next, u, c, v, d, w);
    LeadsOn(next, s, u, w);
  }
}
