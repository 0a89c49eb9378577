/** Tables as sequences of rows, and a per-row transformation applied to each. */
module Tables {

  /** `f` applied to every row of `xs`, keeping the order. */
  function Map<A, B>(f: A --> B, xs: seq<A>): (ys: seq<B>)
    requires forall i :: 0 <= i < |xs| ==> f.requires(xs[i])
    ensures |ys| == |xs|
    ensures forall i :: 0 <= i < |xs| ==> ys[i] == f(xs[i])
  {
    if xs == [] then []
    else [f(xs[0])] + Map(f, xs[1..])
  }

  /** Rows are transformed independently: mapping a concatenation maps each part. */
  lemma MapAppend<A, B>(f: A --> B, xs: seq<A>, ys: seq<A>)
    requires forall i :: 0 <= i < |xs| ==> f.requires(xs[i])
    requires forall i :: 0 <= i < |ys| ==> f.requires(ys[i])
    ensures Map(f, xs + ys) == Map(f, xs) + Map(f, ys)
  {
    var zs := xs + ys;
    forall i | 0 <= i < |zs|
      ensures f.requires(zs[i])
    {
      if i < |xs| {
        assert zs[i] == xs[i];
      } else {
        assert zs[i] == ys[i - |xs|];
      }
    }
    var whole, left, right := Map(f, zs), Map(f, xs), Map(f, ys);
    forall i | 0 <= i < |zs|
      ensures whole[i] == (left + right)[i]
    {
      if i < |xs| {
        assert zs[i] == xs[i];
      } else {
        assert zs[i] == ys[i - |xs|];
      }
    }
  }
}
