/**
 * Model of www/js/components/supporters.js: the auto-scrolling sponsor ticker.
 *
 * The children of `.supporters-track` are a sequence of nodes; a node records
 * the markup of the supporter item and whether it is a clone made by
 * `cloneNode(true)`.  Widths measured in the browser (`offsetWidth` of the
 * first item, `innerWidth` of the window) are inputs.
 */
module Supporters {

  /** A child of the track: the item's markup and whether it is a clone. */
  datatype Node = Node(html: string, isClone: bool)

  /** The originals as they sit in the track. */
  function Originals(items: seq<string>): (r: seq<Node>)
    ensures |r| == |items|
    ensures forall k :: 0 <= k < |items| ==> r[k] == Node(items[k], false)
  {
    seq(|items|, k requires 0 <= k < |items| => Node(items[k], false))
  }

  /** One round of clones, one per original, in the originals' order. */
  function Clones(items: seq<string>): (r: seq<Node>)
    ensures |r| == |items|
    ensures forall k :: 0 <= k < |items| ==> r[k] == Node(items[k], true)
  {
    seq(|items|, k requires 0 <= k < |items| => Node(items[k], true))
  }

  /** `rounds` rounds of clones, appended one round after the other. */
  function Rounds(items: seq<string>, rounds: nat): seq<Node> {
    if rounds == 0 then [] else Rounds(items, rounds - 1) + Clones(items)
  }

  /** The track `runSetup` builds: the originals, then `duplicates` rounds of clones. */
  function Track(items: seq<string>, duplicates: nat): seq<Node> {
    Originals(items) + Rounds(items, duplicates)
  }

  /**
   * `Math.ceil(screenWidth / totalItemsWidth) + 1` for a positive total width:
   * the least number of rounds that covers the screen plus one more round.
   */
  function NumDuplicates(screenWidth: nat, totalItemsWidth: nat): (d: nat)
    requires totalItemsWidth > 0
    ensures d >= 1
    ensures d * totalItemsWidth >= screenWidth + totalItemsWidth
    ensures (d - 2) * totalItemsWidth < screenWidth || d == 1
  {
    CeilDiv(screenWidth, totalItemsWidth) + 1
  }

  /** Integer ceiling of `a / b`, characterised as the least `q` with `q * b >= a`. */
  function CeilDiv(a: nat, b: nat): (q: nat)
    requires b > 0
    ensures q * b >= a
    ensures q == 0 || (q - 1) * b < a
  {
    var q := (a + b - 1) / b;
    var rem := (a + b - 1) % b;
    assert q * b + rem == a + b - 1;
    assert q * b >= a;
    assert (q - 1) * b == q * b - b;
    q
  }

  /** Position `n * r + p` of the track holds original `p`, as a clone exactly from round 1 on. */
  lemma {:induction false} TrackAt(items: seq<string>, duplicates: nat, r: nat, p: nat)
    requires p < |items| && r <= duplicates
    ensures |Track(items, duplicates)| == |items| * (duplicates + 1)
    ensures |items| * r + p < |Track(items, duplicates)|
    ensures Track(items, duplicates)[|items| * r + p] == Node(items[p], r > 0)
  {
    var n := |items|;
    RoundsLength(items, duplicates);
    assert n * (duplicates + 1) == n + n * duplicates;
    assert n * r <= n * duplicates;
    if r > 0 {
      RoundsAt(items, duplicates, r - 1, p);
      assert n * r + p == n + (n * (r - 1) + p);
    }
  }

  lemma {:induction false} RoundsLength(items: seq<string>, rounds: nat)
    ensures |Rounds(items, rounds)| == |items| * rounds
  {
    if rounds > 0 {
      RoundsLength(items, rounds - 1);
    }
  }

  /** Round `r` (counting from 0) starts at position `n * r` of the clones. */
  lemma {:induction false} RoundsAt(items: seq<string>, rounds: nat, r: nat, p: nat)
    requires p < |items| && r < rounds
    ensures |items| * r + p < |Rounds(items, rounds)|
    ensures Rounds(items, rounds)[|items| * r + p] == Node(items[p], true)
  {
    RoundsLength(items, rounds - 1);
    RoundsLength(items, rounds);
    if r < rounds - 1 {
      RoundsAt(items, rounds - 1, r, p);
    } else {
      assert |items| * r + p == |Rounds(items, rounds - 1)| + p;
    }
  }

  lemma OriginalsSnoc(items: seq<string>, k: nat)
    requires k < |items|
    ensures Originals(items[..k + 1]) == Originals(items[..k]) + [Node(items[k], false)]
  {
  }

  lemma ClonesSnoc(items: seq<string>, k: nat)
    requires k < |items|
    ensures Clones(items[..k + 1]) == Clones(items[..k]) + [Node(items[k], true)]
  {
  }

  lemma TrackSucc(items: seq<string>, r: nat)
    ensures Track(items, r + 1) == Track(items, r) + Clones(items)
  {
  }

  /** The item at position `k` is original `k mod n`, a clone exactly when `k >= n`. */
  lemma TrackAtMod(items: seq<string>, duplicates: nat, k: nat)
    requires |items| > 0 && k < |items| * (duplicates + 1)
    ensures |Track(items, duplicates)| == |items| * (duplicates + 1)
    ensures Track(items, duplicates)[k] == Node(items[k % |items|], k >= |items|)
  {
    var n := |items|;
    var r, p := k / n, k % n;
    assert k == n * r + p;
    if r > duplicates {
      MulLe(n, duplicates + 1, r);
      assert false;
    }
    if r > 0 {
      MulLe(n, 1, r);
    }
    TrackAt(items, duplicates, r, p);
  }

  lemma MulLe(n: nat, a: nat, b: nat)
    requires a <= b
    ensures n * a <= n * b
  {
  }

  /** The track begins with exactly the originals, in their order. */
  lemma TrackStartsWithOriginals(items: seq<string>, duplicates: nat)
    ensures |Track(items, duplicates)| >= |items|
    ensures Track(items, duplicates)[..|items|] == Originals(items)
  {
  }

  /**
   * The ticker after `setupSupporters` has captured the original items (the
   * static NodeList of `.supporters-item`).
   */
  class Ticker {
    const originals: seq<string>
    var track: seq<Node>

    /** `setupSupporters` before its first `runSetup`: the originals are captured once, from the page. */
    constructor (items: seq<string>, current: seq<Node>)
      ensures originals == items && track == current
    {
      originals := items;
      track := current;
    }

    /**
     * `runSetup`: clear the track, re-append the originals, then append
     * `numDuplicates` rounds of clones.  With no original item the width read
     * throws after the track was cleared; `ok` reports whether it completed.
     * With zero-width items on a zero-width window `0 / 0` is NaN, the loop
     * test `i < NaN` is false at once, and only the originals remain.
     * The new track depends only on the originals and the two widths, so a
     * rerun on resize with unchanged widths rebuilds the same track.
     */
    method RunSetup(itemWidth: nat, screenWidth: nat) returns (ok: bool)
      requires |originals| > 0 && itemWidth == 0 ==> screenWidth == 0
      modifies this
      ensures ok <==> |originals| > 0
      ensures ok && itemWidth > 0 ==> track == Track(originals, NumDuplicates(screenWidth, itemWidth * |originals|))
      ensures ok && itemWidth == 0 ==> track == Originals(originals)
      ensures !ok ==> track == []
    {
      track := [];
      for k := 0 to |originals|
        invariant track == Originals(originals[..k])
      {
        OriginalsSnoc(originals, k);
        track := track + [Node(originals[k], false)];
      }
      assert originals[..|originals|] == originals;
      if |originals| == 0 {
        return false;
      }
      var totalItemsWidth := itemWidth * |originals|;
      var numDuplicates := if totalItemsWidth == 0 then 0 else NumDuplicates(screenWidth, totalItemsWidth);
      for r := 0 to numDuplicates
        invariant track == Track(originals, r)
      {
        for k := 0 to |originals|
          invariant track == Track(originals, r) + Clones(originals[..k])
        {
          ClonesSnoc(originals, k);
          track := track + [Node(originals[k], true)];
        }
        TrackSucc(originals, r);
        assert originals[..|originals|] == originals;
      }
      assert track == Track(originals, numDuplicates);
      ok := true;
    }
  }

  /** `setupSupporters`: capture the items, run the setup once (the resize listener reruns it). */
  method SetupSupporters(items: seq<string>, current: seq<Node>, itemWidth: nat, screenWidth: nat)
    returns (ticker: Ticker, ok: bool)
    requires |items| > 0 && itemWidth == 0 ==> screenWidth == 0
    ensures fresh(ticker) && ticker.originals == items
    ensures ok <==> |items| > 0
    ensures ok && itemWidth > 0 ==> ticker.track == Track(items, NumDuplicates(screenWidth, itemWidth * |items|))
    ensures ok && itemWidth == 0 ==> ticker.track == Originals(items)
    ensures !ok ==> ticker.track == []
  {
    ticker := new Ticker(items, current);
    ok := ticker.RunSetup(itemWidth, screenWidth);
  }
}
