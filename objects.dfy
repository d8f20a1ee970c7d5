/** Plain JavaScript objects seen as finite maps from property names to values. */
module Objects {

  /**
   * `Object.keys(src).forEach(function(k) { dst[k] = src[k]; })` into a fresh
   * object `dst`: the copy loop that both the schema derivation and the
   * pending-record construction use.
   */
  method CopyFields<V>(src: map<string, V>) returns (dst: map<string, V>)
    ensures dst.Keys == src.Keys
    ensures forall k :: k in src ==> dst[k] == src[k]
  {
    dst := map[];
    var todo := src.Keys;
    while todo != {}
      invariant todo <= src.Keys
      invariant dst.Keys == src.Keys - todo
      invariant forall k :: k in dst ==> dst[k] == src[k]
      decreases todo
    {
      var k :| k in todo;
      dst := dst[k := src[k]];
      todo := todo - {k};
    }
  }
}
