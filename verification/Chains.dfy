/** Chains of states, each leading to the next. */
module Chains {

  ghost predicate Chain<W(!new)>(next: (W, W) -> bool, ws: seq<W>) {
    ws != [] && forall i :: 0 < i < |ws| ==> next(ws[i - 1], ws[i])
  }

  lemma ChainOn<W(!new)>(next: (W, W) -> bool, a: seq<W>, b: seq<W>)
    requires Chain(next, a) && Chain(next, b) && a[|a| - 1] == b[0]
    ensures Chain(next, a + b[1..]) && (a + b[1..])[0] == a[0] && (a + b[1..])[|a| + |b| - 2] == b[|b| - 1]
  {
    var ws := a + b[1..];
    assert forall i :: |a| - 1 <= i < |ws| ==> ws[i] == b[i - |a| + 1];
    forall i | 0 < i < |ws| ensures next(ws[i - 1], ws[i]) {
      if i >= |a| {
        assert next(b[i - |a|], b[i - |a| + 1]);
      }
    }
  }

  ghost predicate Joined<W(!new)>(next: (W, W) -> bool, w: W, w': W) {
    exists ws :: Chain(next, ws) && ws[0] == w && ws[|ws| - 1] == w'
  }

  lemma JoinedOn<W(!new)>(next: (W, W) -> bool, w: W, m: W, w': W)
    requires Joined(next, w, m) && Joined(next, m, w')
    ensures Joined(next, w, w')
  {
    var a :| Chain(next, a) && a[0] == w && a[|a| - 1] == m;
    var b :| Chain(next, b) && b[0] == m && b[|b| - 1] == w';
    ChainOn(next, a, b);
  }

  lemma NextIsJoined<W(!new)>(next: (W, W) -> bool, w: W, w': W)
    requires next(w, w')
    ensures Joined(next, w, w')
  {
    assert Chain(next, [w, w']);
  }

  /** The later of two changes of a key counts. */
  lemma Twice<K, V>(m: map<K, V>, k: K, a: V, b: V)
    ensures m[k := a][k := b] == m[k := b]
  {
  }
}
