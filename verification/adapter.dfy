/** Adapters as the benchmark lists them (src/adapter.rs): the name from the
    DXGI description and the LUID the performance counters are keyed by. */
module Adapters {
  import opened Win
  import opened Wide
  import opened Dxgi

  datatype Adapter = Adapter(name: string, luid: Luid)

  /** `Adapter::from_dxgi_adapter`: `GetDesc1` with `?`, the description up
      to its first NUL decoded with `?`, the LUID copied. */
  function FromDxgiAdapter(a: DxgiAdapter): (r: Result<Adapter>)
    ensures !a.desc.Ok? ==> r == a.desc.PropagateFailure()
    ensures a.desc.Ok? ==> (r.Ok? <==> DecodeUtf16(TruncateAtNul(a.desc.value.description)).Ok?)
    ensures a.desc.Ok? && !r.Ok? ==> r == Err(E_NO_UNICODE_TRANSLATION)
    ensures r.Ok? ==> (EncodeUtf16(r.value.name) == TruncateAtNul(a.desc.value.description)
      && '\0' !in r.value.name && r.value.luid == a.desc.value.adapterLuid)
  {
    var desc :- a.desc;
    var name :- NameOf(desc.description);
    Ok(Adapter(name, desc.adapterLuid))
  }

  /** An adapter whose description holds `name`, NUL-terminated or filling
      the buffer, is listed under exactly that name and its own LUID. */
  lemma AdapterNameRoundTrip(name: string, tail: seq<u16>, luid: Luid, outputs: seq<Option<DxgiOutput>>)
    requires '\0' !in name
    ensures FromDxgiAdapter(DxgiAdapter(Ok(AdapterDesc(EncodeUtf16(name) + [0] + tail, luid)), outputs))
      == Ok(Adapter(name, luid))
    ensures FromDxgiAdapter(DxgiAdapter(Ok(AdapterDesc(EncodeUtf16(name), luid)), outputs))
      == Ok(Adapter(name, luid))
  {
    NameOfStored(name, tail);
  }

  /** `from_dxgi_adapter` applied to each adapter. */
  function FromEach(ds: seq<DxgiAdapter>): (rs: seq<Result<Adapter>>)
    ensures |rs| == |ds| && forall i :: 0 <= i < |ds| ==> rs[i] == FromDxgiAdapter(ds[i])
  {
    seq(|ds|, i requires 0 <= i < |ds| => FromDxgiAdapter(ds[i]))
  }

  /** A loop pushing `from_dxgi_adapter(..)?` for each adapter in turn. */
  method CollectAdapters(ds: seq<DxgiAdapter>) returns (r: Result<seq<Adapter>>)
    ensures r == AllOk(FromEach(ds))
  {
    var adapters := [];
    var i := 0;
    while i < |ds|
      invariant 0 <= i <= |ds| && |adapters| == i
      invariant forall j :: 0 <= j < i ==> FromDxgiAdapter(ds[j]) == Ok(adapters[j])
    {
      var adapter := FromDxgiAdapter(ds[i]);
      if !adapter.Ok? {
        AllOkAfter(FromEach(ds), adapters);
        return adapter.PropagateFailure();
      }
      adapters := adapters + [adapter.value];
      i := i + 1;
    }
    AllOkAfter(FromEach(ds), adapters);
    r := Ok(adapters);
  }

  /** `Adapter::from_dxgi_factory`: walk the factory's adapter iterator,
      converting each with `?`: one adapter per enumerated DXGI adapter, in
      order, or the first failure. */
  method FromDxgiFactory(factory: DxgiFactory) returns (r: Result<seq<Adapter>>)
    ensures r == AllOk(FromEach(Enumerated(factory.adapters)))
  {
    ghost var items := Enumerated(factory.adapters);
    ghost var rs := FromEach(items);
    var it := new IndexIterator.Begin(factory.adapters);
    var adapters := [];
    var done := false;
    while !done
      invariant it.slots == factory.adapters && it.index == |adapters| <= |items|
      invariant forall j :: 0 <= j < |adapters| ==> rs[j] == Ok(adapters[j])
      invariant done ==> |adapters| == |items|
      decreases |items| - it.index + (if done then 0 else 1)
    {
      var next := it.Next();
      if next.Some? {
        assert |adapters| < |items| && next.value == items[|adapters|];
        var adapter := FromDxgiAdapter(next.value);
        if !adapter.Ok? {
          AllOkAfter(rs, adapters);
          return adapter.PropagateFailure();
        }
        adapters := adapters + [adapter.value];
      } else {
        done := true;
      }
    }
    AllOkAfter(rs, adapters);
    r := Ok(adapters);
  }
}
