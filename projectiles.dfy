/**
  The bullets in flight: spawned by a shot, moved by their velocity once per
  frame, and removed by the frame that finds them outside the canvas.
 */
module Projectiles {

  const BulletSpeed: real := 16.0
  const BulletRadius: real := 5.0

  datatype Bullet = Bullet(x: real, y: real, radius: real, dx: real, dy: real)

  /** The removal test of the collision check: strictly outside the canvas
      rectangle [0, width] x [0, height]. */
  predicate OffScreen(b: Bullet, width: real, height: real) {
    b.x < 0.0 || b.x > width || b.y < 0.0 || b.y > height
  }

  /** The bullets the collision check keeps, in their original order. */
  function Survivors(bs: seq<Bullet>, width: real, height: real): (r: seq<Bullet>)
    ensures |r| <= |bs|
    ensures forall i :: 0 <= i < |r| ==> !OffScreen(r[i], width, height)
    decreases |bs|
  {
    if bs == [] then []
    else
      var last := bs[|bs| - 1];
      Survivors(bs[..|bs| - 1], width, height) + (if OffScreen(last, width, height) then [] else [last])
  }

  /** A bullet survives the collision check exactly when it was in the list
      and lies within the canvas rectangle. */
  lemma {:induction false} SurvivorsMembers(bs: seq<Bullet>, width: real, height: real)
    ensures forall b :: b in Survivors(bs, width, height) <==>
              b in bs && 0.0 <= b.x <= width && 0.0 <= b.y <= height
    decreases |bs|
  {
    if bs != [] {
      var n := |bs| - 1;
      SurvivorsMembers(bs[..n], width, height);
      assert bs == bs[..n] + [bs[n]];
    }
  }

  lemma {:induction false} SurvivorsAppend(a: seq<Bullet>, b: seq<Bullet>, width: real, height: real)
    ensures Survivors(a + b, width, height) == Survivors(a, width, height) + Survivors(b, width, height)
    decreases |b|
  {
    if b == [] {
      assert a + b == a;
    } else {
      var n := |b| - 1;
      assert (a + b)[..|a + b| - 1] == a + b[..n];
      assert (a + b)[|a + b| - 1] == b[n];
      SurvivorsAppend(a, b[..n], width, height);
    }
  }

  /** Extending a prefix by one bullet extends its survivors by that bullet
      exactly when it is on screen. */
  lemma SurvivorsExtend(bs: seq<Bullet>, k: int, width: real, height: real)
    requires 0 <= k < |bs|
    ensures Survivors(bs[..k + 1], width, height) ==
              Survivors(bs[..k], width, height) + (if OffScreen(bs[k], width, height) then [] else [bs[k]])
  {
    assert bs[..k + 1][..k] == bs[..k];
  }

  lemma {:induction false} OnScreenKeptWhole(bs: seq<Bullet>, width: real, height: real)
    requires forall i :: 0 <= i < |bs| ==> !OffScreen(bs[i], width, height)
    ensures Survivors(bs, width, height) == bs
    decreases |bs|
  {
    if bs != [] {
      var n := |bs| - 1;
      var prefix := bs[..n];
      assert forall i :: 0 <= i < n ==> prefix[i] == bs[i];
      OnScreenKeptWhole(prefix, width, height);
      assert !OffScreen(bs[n], width, height);
      assert prefix + [bs[n]] == bs;
    }
  }

  /** The collision check leaves a list unchanged exactly when every bullet
      in it is on screen. */
  lemma SurvivorsKeepAllOnScreen(bs: seq<Bullet>, width: real, height: real)
    ensures Survivors(bs, width, height) == bs <==>
              forall i :: 0 <= i < |bs| ==> !OffScreen(bs[i], width, height)
  {
    if forall i :: 0 <= i < |bs| ==> !OffScreen(bs[i], width, height) {
      OnScreenKeptWhole(bs, width, height);
    } else {
      var i :| 0 <= i < |bs| && OffScreen(bs[i], width, height);
      SurvivorsMembers(bs, width, height);
      assert bs[i] in bs;
      assert bs[i] !in Survivors(bs, width, height);
    }
  }

  /** Running the collision check a second time removes nothing more. */
  lemma SurvivorsIdempotent(bs: seq<Bullet>, width: real, height: real)
    ensures Survivors(Survivors(bs, width, height), width, height) == Survivors(bs, width, height)
  {
    var r := Survivors(bs, width, height);
    SurvivorsMembers(bs, width, height);
    forall i | 0 <= i < |r| ensures !OffScreen(r[i], width, height) {
      assert r[i] in r;
    }
    SurvivorsKeepAllOnScreen(r, width, height);
  }

  /** The indices of the on-screen bullets of `bs`, in increasing order. */
  function KeptIndices(bs: seq<Bullet>, width: real, height: real): (r: seq<nat>)
    ensures forall j :: 0 <= j < |r| ==> r[j] < |bs| && !OffScreen(bs[r[j]], width, height)
    ensures forall j, k :: 0 <= j < k < |r| ==> r[j] < r[k]
    ensures forall i :: 0 <= i < |bs| && !OffScreen(bs[i], width, height) ==> i in r
    decreases |bs|
  {
    if bs == [] then []
    else
      var n := |bs| - 1;
      var prefix := KeptIndices(bs[..n], width, height);
      assert forall i :: 0 <= i < n ==> bs[..n][i] == bs[i];
      prefix + (if OffScreen(bs[n], width, height) then [] else [n])
  }

  /** No skip, order preserved: the kept list is exactly the on-screen
      bullets, taken at their indices in increasing order. */
  lemma {:induction false} SurvivorsAreKeptIndices(bs: seq<Bullet>, width: real, height: real)
    ensures |Survivors(bs, width, height)| == |KeptIndices(bs, width, height)|
    ensures forall j :: 0 <= j < |KeptIndices(bs, width, height)| ==>
              Survivors(bs, width, height)[j] == bs[KeptIndices(bs, width, height)[j]]
    decreases |bs|
  {
    if bs != [] {
      var n := |bs| - 1;
      var prefix := bs[..n];
      SurvivorsAreKeptIndices(prefix, width, height);
      var s0 := Survivors(prefix, width, height);
      var k0 := KeptIndices(prefix, width, height);
      var s := Survivors(bs, width, height);
      var k := KeptIndices(bs, width, height);
      assert s == s0 + (if OffScreen(bs[n], width, height) then [] else [bs[n]]);
      assert k == k0 + (if OffScreen(bs[n], width, height) then [] else [n]);
      forall j | 0 <= j < |k| ensures s[j] == bs[k[j]] {
        if j < |k0| {
          assert s[j] == s0[j] == prefix[k0[j]];
          assert k[j] == k0[j] < n;
        } else {
          assert s[j] == bs[n] && k[j] == n;
        }
      }
    }
  }

  /** A bullet after one frame's movement. */
  function Moved(b: Bullet): Bullet {
    b.(x := b.x + b.dx, y := b.y + b.dy)
  }

  /** Every bullet after one frame's movement, in place. */
  function MoveAll(bs: seq<Bullet>): (r: seq<Bullet>)
    ensures |r| == |bs|
    ensures forall i :: 0 <= i < |bs| ==>
              && r[i].x == bs[i].x + bs[i].dx && r[i].y == bs[i].y + bs[i].dy
              && r[i].(x := bs[i].x, y := bs[i].y) == bs[i]
  {
    seq(|bs|, i requires 0 <= i < |bs| => Moved(bs[i]))
  }
}
