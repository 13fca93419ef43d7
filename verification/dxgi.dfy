/** DXGI enumeration (src/windows_utils/dxgi.rs): an iterator that asks the
    factory (or adapter) for the item at its index, `.ok()`-ing the answer,
    and advances only when it got one. */
module Dxgi {
  import opened Win

  /** `DXGI_ADAPTER_DESC1`, the parts read here: the UTF-16 description
      buffer and the adapter's LUID. */
  datatype AdapterDesc = AdapterDesc(description: seq<u16>, adapterLuid: Luid)

  /** `DXGI_OUTPUT_DESC`, the part read here: the monitor it shows. */
  datatype OutputDesc = OutputDesc(monitor: int)

  /** An `IDXGIOutput`: what `GetDesc` answers. */
  datatype DxgiOutput = DxgiOutput(desc: Result<OutputDesc>)

  /** An `IDXGIAdapter1`: what `GetDesc1` answers, and what `EnumOutputs(i)`
      answers for each index (nothing at and beyond the end of `outputs`). */
  datatype DxgiAdapter = DxgiAdapter(desc: Result<AdapterDesc>, outputs: seq<Option<DxgiOutput>>)

  /** An `IDXGIFactory1`: what `EnumAdapters1(i)` answers for each index. */
  datatype DxgiFactory = DxgiFactory(adapters: seq<Option<DxgiAdapter>>)

  /** The answer at index `i`, `.ok()`-ed: beyond the slots it is `NOT_FOUND`, so `None`. */
  function Answer<T>(slots: seq<Option<T>>, i: nat): Option<T> {
    if i < |slots| then slots[i] else None
  }

  /** What collecting the iterator yields: the items before the first index
      that answers nothing. */
  function Enumerated<T>(slots: seq<Option<T>>): (items: seq<T>)
    ensures |items| <= |slots|
    ensures forall i :: 0 <= i < |items| ==> slots[i] == Some(items[i])
    ensures |items| < |slots| ==> slots[|items|].None?
  {
    if slots == [] || slots[0].None? then [] else [slots[0].value] + Enumerated(slots[1..])
  }

  /** `DxgiAdapterIterator` and `DxgiOutputIterator`: the source to ask and
      the index to ask for. */
  class IndexIterator<T> {
    const slots: seq<Option<T>>
    var index: nat

    /** `iter_adapters` / `iter_outputs`: start at index 0. */
    constructor Begin(slots: seq<Option<T>>)
      ensures this.slots == slots && index == 0
    {
      this.slots := slots;
      index := 0;
    }

    /** `next`: the answer at the current index; the index moves on by one
        exactly when there was an item, so after `None` the same index is
        asked again (the iterator is not fused). */
    method Next() returns (item: Option<T>)
      modifies this
      ensures item == Answer(slots, old(index))
      ensures index == old(index) + (if item.Some? then 1 else 0)
    {
      item := Answer(slots, index);
      if item.Some? {
        index := index + 1;
      }
    }
  }

  /** `iter().collect()`: `next` until it answers `None`. */
  method Collect<T>(it: IndexIterator<T>) returns (items: seq<T>)
    requires it.index == 0
    modifies it
    ensures items == Enumerated(it.slots)
    ensures it.index == |items|
  {
    items := [];
    var done := false;
    while !done
      invariant it.index == |items| <= |it.slots|
      invariant forall i :: 0 <= i < |items| ==> it.slots[i] == Some(items[i])
      invariant done ==> (|items| == |it.slots| || it.slots[|items|].None?)
      decreases |it.slots| - it.index + (if done then 0 else 1)
    {
      var item := it.Next();
      if item.Some? {
        items := items + [item.value];
      } else {
        done := true;
      }
    }
    EnumeratedIsPrefix(it.slots, items);
  }

  /** The items before the first missing answer are the only sequence that
      is answered slot by slot and stops at a gap or the end. */
  lemma {:induction false} EnumeratedIsPrefix<T>(slots: seq<Option<T>>, items: seq<T>)
    requires |items| <= |slots|
    requires forall i :: 0 <= i < |items| ==> slots[i] == Some(items[i])
    requires |items| == |slots| || slots[|items|].None?
    ensures items == Enumerated(slots)
  {
    if items != [] {
      assert slots[0] == Some(items[0]);
      EnumeratedIsPrefix(slots[1..], items[1..]);
    }
  }

  /** After the end the iterator keeps answering `None` without moving;
      before it, two calls return two consecutive items. */
  method NextTwice<T>(it: IndexIterator<T>) returns (first: Option<T>, second: Option<T>)
    modifies it
    ensures first == Answer(it.slots, old(it.index))
    ensures first.None? ==> second == first && it.index == old(it.index)
    ensures first.Some? ==> second == Answer(it.slots, old(it.index) + 1)
  {
    first := it.Next();
    second := it.Next();
  }
}
