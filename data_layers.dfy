/** The data-layers panel (`DataLayers`): a list of active layer ids toggled
    by the layer buttons, and the summary line shown under them. */
module DataLayers {
  import opened Wrappers
  import opened Text

  type LayerId = string

  /** `prev.filter(id => id !== layer)`: every occurrence dropped, the rest
      kept in order. */
  function Without(ids: seq<LayerId>, layer: LayerId): (r: seq<LayerId>)
    ensures layer !in r
    ensures forall x :: x != layer ==> (x in r <==> x in ids)
    ensures |r| <= |ids|
    ensures layer !in ids ==> r == ids
  {
    if ids == [] then []
    else if ids[0] == layer then Without(ids[1..], layer)
    else [ids[0]] + Without(ids[1..], layer)
  }

  /** `toggleLayer`: `prev.includes(layer) ? prev.filter(...) : [...prev, layer]`. */
  function Toggle(active: seq<LayerId>, layer: LayerId): (r: seq<LayerId>)
    ensures layer in r <==> layer !in active
    ensures layer !in active ==> r == active + [layer]
    ensures forall x :: x != layer ==> (x in r <==> x in active)
  {
    if layer in active then Without(active, layer) else active + [layer]
  }

  predicate NoDuplicates(ids: seq<LayerId>) {
    forall i, j :: 0 <= i < j < |ids| ==> ids[i] != ids[j]
  }

  /** Filtering distributes over concatenation. */
  lemma {:induction false} WithoutAppend(a: seq<LayerId>, b: seq<LayerId>, layer: LayerId)
    ensures Without(a + b, layer) == Without(a, layer) + Without(b, layer)
  {
    if a == [] {
      assert a + b == b;
    } else {
      assert (a + b)[1..] == a[1..] + b;
      WithoutAppend(a[1..], b, layer);
    }
  }

  /** A list is duplicate-free when its head is not repeated and its tail is
      duplicate-free. */
  lemma NoDuplicatesCons(x: LayerId, tail: seq<LayerId>)
    ensures NoDuplicates([x] + tail) <==> x !in tail && NoDuplicates(tail)
  {
    var s := [x] + tail;
    if x !in tail && NoDuplicates(tail) {
      forall i, j | 0 <= i < j < |s| ensures s[i] != s[j] {
        assert s[j] == tail[j - 1];
        if i > 0 {
          assert s[i] == tail[i - 1];
        }
      }
    }
    if NoDuplicates(s) {
      forall i, j | 0 <= i < j < |tail| ensures tail[i] != tail[j] {
        assert tail[i] == s[i + 1] && tail[j] == s[j + 1];
      }
      forall k | 0 <= k < |tail| ensures tail[k] != x {
        assert tail[k] == s[k + 1] && s[0] == x;
      }
    }
  }

  /** Filtering out one id keeps a duplicate-free list duplicate-free. */
  lemma {:induction false} WithoutKeepsNoDuplicates(ids: seq<LayerId>, layer: LayerId)
    requires NoDuplicates(ids)
    ensures NoDuplicates(Without(ids, layer))
  {
    if ids != [] {
      assert ids == [ids[0]] + ids[1..];
      NoDuplicatesCons(ids[0], ids[1..]);
      WithoutKeepsNoDuplicates(ids[1..], layer);
      if ids[0] != layer {
        NoDuplicatesCons(ids[0], Without(ids[1..], layer));
      }
    }
  }

  /** Toggling keeps the active list free of duplicates. */
  lemma ToggleKeepsNoDuplicates(active: seq<LayerId>, layer: LayerId)
    requires NoDuplicates(active)
    ensures NoDuplicates(Toggle(active, layer))
  {
    if layer in active {
      WithoutKeepsNoDuplicates(active, layer);
    } else {
      var r := active + [layer];
      forall i, j | 0 <= i < j < |r| ensures r[i] != r[j] {
        if j == |active| {
          assert r[i] == active[i];
        } else {
          assert r[i] == active[i] && r[j] == active[j];
        }
      }
    }
  }

  /** Toggling an inactive id twice gives back the original list. */
  lemma ToggleTwiceRestores(active: seq<LayerId>, layer: LayerId)
    requires layer !in active
    ensures Toggle(Toggle(active, layer), layer) == active
  {
    WithoutAppend(active, [layer], layer);
    assert Without([layer], layer) == [];
    assert active + [] == active;
  }

  /** The other ids keep their relative order: with the toggled id filtered
      out, the list before and after the toggle is the same. */
  lemma ToggleKeepsOthersInOrder(active: seq<LayerId>, layer: LayerId)
    ensures Without(Toggle(active, layer), layer) == Without(active, layer)
  {
    if layer !in active {
      WithoutAppend(active, [layer], layer);
      assert Without([layer], layer) == [];
      assert active + [] == active;
    } else {
      WithoutIdempotent(active, layer);
    }
  }

  lemma WithoutIdempotent(ids: seq<LayerId>, layer: LayerId)
    ensures Without(Without(ids, layer), layer) == Without(ids, layer)
  {
  }

  /** The summary shown under the buttons: how many layers are active, with
      the noun in the plural unless there is exactly one, and the first
      comma-separated part of the selected place's name. */
  datatype Summary = Summary(count: nat, noun: string, place: string)

  /** `location && activeLayers.length > 0 && ...`; `location` is the
      selected place's name, or `None` when nothing is selected. */
  function SummaryOf(location: Option<string>, active: seq<LayerId>): (r: Option<Summary>)
    ensures r.Some? <==> location.Some? && |active| > 0
    ensures r.Some? ==> r.value.count == |active| && r.value.place == TakeUntil(location.value, ',')
    ensures r.Some? ==> (r.value.noun == "layers" <==> |active| != 1)
    ensures r.Some? ==> (r.value.noun == "layer" <==> |active| == 1)
  {
    if location.Some? && |active| > 0 then
      Some(Summary(|active|, if |active| != 1 then "layers" else "layer", TakeUntil(location.value, ',')))
    else None
  }
}
