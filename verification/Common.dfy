/** Definitions that several modules share */
module Common {
  datatype Option<+T> = None | Some(value: T)

  function Min(a: int, b: int): int
  {
    if a < b then a else b
  }

  function Max(a: int, b: int): int
  {
    if a > b then a else b
  }

  function Abs(x: int): nat
  {
    if x < 0 then -x else x
  }

  /** What `deque_steal` or `deque_steal_half` takes: one task, or half of them. */
  function LootSize(len: nat, half: bool): nat
  {
    if half && len / 2 > 0 then len / 2 else 1
  }

  /** Some definitions stand behind `forall u :: Unfold(u) ==> ...`, so that the verifier looks at
      them only where Unfold is mentioned. */
  predicate Unfold(u: int)
  {
    true
  }
}
