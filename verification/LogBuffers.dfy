/** FixedBuffer as an object: an array filled in place, and passed on by moves. The machine of AsyncLog sees a value. */
module LogBuffers {
  import opened Options
  import opened AsyncLog

  /** A bounded buffer that owns its array, or nothing after a move. */
  class FixedBuffer {
    const n: nat
    var ctxs: array?<Message>
    var index: nat

    ghost predicate Valid()
      reads this
    {
      if ctxs == null then index == 0 else ctxs.Length == n && index <= n
    }

    ghost function Items(): (s: seq<Message>)
      reads this, ctxs
      requires Valid()
      ensures |s| == index
    {
      if ctxs == null then [] else ctxs[..index]
    }

    /** The buffer as a value; `block` stands for its array. */
    ghost function View(block: nat): (b: Buffer)
      reads this, ctxs
      requires Valid()
    {
      if ctxs == null then MOVED else Buffer(Some(block), Items())
    }

    constructor (n: nat)
      ensures Valid() && this.n == n && ctxs != null && fresh(ctxs) && Items() == []
    {
      this.n := n;
      index := 0;
      ctxs := new Message[n];
    }

    /** The move constructor. */
    constructor Move(rhs: FixedBuffer)
      requires rhs.Valid()
      modifies rhs
      ensures Valid() && n == rhs.n && ctxs == old(rhs.ctxs)
      ensures forall block: nat :: View(block) == old(rhs.View(block))
      ensures rhs.Valid() && rhs.View(0) == MOVED
    {
      n := rhs.n;
      ctxs := rhs.ctxs;
      index := rhs.index;
      new;
      rhs.ctxs := null;
      rhs.index := 0;
    }

    /** Move assignment frees nothing: an array that the target still owned would be leaked. */
    method MoveFrom(rhs: FixedBuffer)
      requires Valid() && rhs.Valid() && rhs.n == n
      modifies this, rhs
      ensures Valid() && ctxs == old(rhs.ctxs) && forall block: nat :: View(block) == old(rhs.View(block))
      ensures rhs != this ==> rhs.Valid() && rhs.View(0) == MOVED
    {
      if rhs == this {
        return;
      }
      ctxs := rhs.ctxs;
      index := rhs.index;
      rhs.ctxs := null;
      rhs.index := 0;
    }

    predicate Full()
      reads this
    {
      index == n
    }

    /** A push on a full buffer does nothing. */
    method Push(m: Message)
      requires Valid() && ctxs != null
      modifies this`index, ctxs
      ensures Valid()
      ensures forall block: nat ::
        View(block) == if |old(Items())| < n then Put(old(View(block)), m) else old(View(block))
    {
      if !Full() {
        ctxs[index] := m;
        index := index + 1;
      }
    }

    method Reset()
      requires Valid()
      modifies this`index
      ensures Valid() && forall block: nat :: View(block) == old(View(block)).(items := [])
    {
      index := 0;
    }
  }
}
