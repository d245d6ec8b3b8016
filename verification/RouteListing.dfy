/**
 Reading the route state: page through the hosted zone, keep the stable names and refuse
 parallel or duplicated records.
 */
module RouteListing {
  import opened Base
  import opened Routing

  /** One listing response; `continues` when its continuation fields are well formed. */
  datatype Page = Unreadable | Page(records: seq<Record>, truncated: bool, continues: bool)

  predicate IsStable(r: Record) { !r.name.Unrelated? }

  predicate Supported(r: Record) { r.kind == A || r.kind == TXT }

  /** The records of a bounded listing, or a refusal. */
  function Gather(pages: seq<Page>, got: seq<Record>, read: nat): Result<seq<Record>> {
    if |pages| == 0 || pages[0].Unreadable? || |pages[0].records| > 300 then Refused
    else
      var all := got + pages[0].records;
      if read + 1 > 34 || |all| > 10_000 then Refused
      else if !pages[0].truncated then Ok(all)
      else if !pages[0].continues then Refused
      else Gather(pages[1..], all, read + 1)
  }

  /** The records of all these pages, in order. */
  function Joined(pages: seq<Page>): seq<Record>
    requires forall i :: 0 <= i < |pages| ==> pages[i].Page?
  {
    if |pages| == 0 then [] else Joined(pages[..|pages| - 1]) + pages[|pages| - 1].records
  }

  /** The listing ends with page `n`: the first one that is not truncated, every earlier one well continued. */
  predicate EndsAt(pages: seq<Page>, n: nat) {
    && 0 < n <= |pages|
    && (forall i :: 0 <= i < n ==> pages[i].Page? && |pages[i].records| <= 300)
    && (forall i :: 0 <= i < n - 1 ==> pages[i].truncated && pages[i].continues)
    && !pages[n - 1].truncated
  }

  lemma {:induction false} JoinedCons(pages: seq<Page>)
    requires |pages| > 0 && forall i :: 0 <= i < |pages| ==> pages[i].Page?
    ensures Joined(pages) == pages[0].records + Joined(pages[1..])
  {
    if |pages| > 1 {
      JoinedCons(pages[..|pages| - 1]);
      assert pages[1..][..|pages| - 2] == pages[..|pages| - 1][1..];
    }
  }

  /** Each page's records stand together, after those of the pages before it. */
  lemma {:induction false} JoinedHoldsEveryPage(pages: seq<Page>, i: nat)
    requires i < |pages| && forall k :: 0 <= k < |pages| ==> pages[k].Page?
    ensures var at, n := |Joined(pages[..i])|, |pages[i].records|;
            at + n <= |Joined(pages)| && Joined(pages)[at..at + n] == pages[i].records
            && |Joined(pages[..i + 1])| == at + n
    decreases |pages|
  {
    var last := |pages| - 1;
    if i < last {
      JoinedHoldsEveryPage(pages[..last], i);
      assert pages[..last][..i] == pages[..i] && pages[..last][..i + 1] == pages[..i + 1];
    } else {
      assert pages[..i + 1] == pages && pages[..i + 1][..i] == pages[..i];
    }
  }

  /**
   A bounded listing is all the records of all its pages in order, up to the first page that is
   not truncated; it is refused exactly when there is no such page behind readable, well continued
   pages of at most 300 records, or when it takes more than 34 pages or 10,000 records.
   */
  lemma GatherIsEveryPage(pages: seq<Page>)
    ensures forall n: nat :: EndsAt(pages, n) ==>
              Gather(pages, [], 0) == if n <= 34 && |Joined(pages[..n])| <= 10_000 then Ok(Joined(pages[..n])) else Refused
    ensures (forall n: nat :: !EndsAt(pages, n)) ==> Gather(pages, [], 0) == Refused
  {
    hide Gather, EndsAt, Joined;
    forall n: nat | EndsAt(pages, n)
      ensures 0 < n <= |pages| && forall i :: 0 <= i < n ==> pages[..n][i].Page?
      ensures Gather(pages, [], 0) == if n <= 34 && |Joined(pages[..n])| <= 10_000 then Ok(Joined(pages[..n])) else Refused
    {
      GatherReaches(pages, [], 0, n);
      assert [] + Joined(pages[..n]) == Joined(pages[..n]);
    }
    if forall n: nat :: !EndsAt(pages, n) { GatherNeverEnds(pages, [], 0); }
  }

  lemma {:induction false} GatherReaches(pages: seq<Page>, got: seq<Record>, read: nat, n: nat)
    requires EndsAt(pages, n)
    ensures 0 < n <= |pages| && forall i :: 0 <= i < n ==> pages[..n][i].Page?
    ensures var all := got + Joined(pages[..n]);
            Gather(pages, got, read) == if read + n <= 34 && |all| <= 10_000 then Ok(all) else Refused
    decreases n
  {
    JoinedCons(pages[..n]);
    var first := got + pages[0].records;
    if n == 1 {
      assert pages[..1][1..] == [];
      assert got + Joined(pages[..1]) == first;
    } else {
      LaterEnd(pages, n - 1);
      GatherReaches(pages[1..], first, read + 1, n - 1);
      assert pages[..n][1..] == pages[1..][..n - 1];
      assert first + Joined(pages[1..][..n - 1]) == got + Joined(pages[..n]);
    }
  }

  lemma {:induction false} GatherNeverEnds(pages: seq<Page>, got: seq<Record>, read: nat)
    requires forall n: nat :: !EndsAt(pages, n)
    ensures Gather(pages, got, read) == Refused
    decreases |pages|
  {
    if |pages| == 0 || pages[0].Unreadable? || |pages[0].records| > 300 {
      return;
    }
    assert !EndsAt(pages, 1);
    if pages[0].continues {
      forall n: nat
        ensures !EndsAt(pages[1..], n)
      {
        assert !EndsAt(pages, n + 1);
        if n > 0 { LaterEnd(pages, n); }
      }
      GatherNeverEnds(pages[1..], got + pages[0].records, read + 1);
    }
  }

  lemma LaterEnd(pages: seq<Page>, n: nat)
    requires |pages| > 0 && pages[0].Page? && |pages[0].records| <= 300 && pages[0].truncated && pages[0].continues && n > 0
    ensures EndsAt(pages[1..], n) <==> EndsAt(pages, n + 1)
  {
    if EndsAt(pages, n + 1) {
      assert forall i :: 0 <= i < n ==> pages[1..][i] == pages[i + 1];
    }
    if EndsAt(pages[1..], n) {
      assert forall i :: 0 < i < n + 1 ==> pages[i] == pages[1..][i - 1];
    }
  }

  /** No stable name carries another type or the same type twice. */
  predicate Unambiguous(records: seq<Record>) {
    && (forall i :: 0 <= i < |records| && IsStable(records[i]) ==> Supported(records[i]))
    && forall i, j :: 0 <= i < j < |records| && IsStable(records[i]) && IsStable(records[j]) ==>
         records[i].Key() != records[j].Key()
  }

  /** `zone` holds exactly the stable records of the list. */
  predicate Selects(records: seq<Record>, zone: Zone) {
    && (forall i :: 0 <= i < |records| && IsStable(records[i]) ==>
          records[i].Key() in zone && zone[records[i].Key()] == records[i].value)
    && forall key :: key in zone ==> exists i :: 0 <= i < |records| && IsStable(records[i]) && records[i].Key() == key
  }

  method ReadRouteState(pages: seq<Page>) returns (r: Result<Zone>)
    ensures r.Ok? <==> Gather(pages, [], 0).Ok? && Unambiguous(Gather(pages, [], 0).value)
    ensures r.Ok? ==> Selects(Gather(pages, [], 0).value, r.value)
  {
    hide Gather, Unambiguous, Selects;
    var listed := ReadPages(pages);
    if listed.Refused? { return Refused; }
    r := SelectStable(listed.value);
  }

  method ReadPages(pages: seq<Page>) returns (r: Result<seq<Record>>)
    ensures r == Gather(pages, [], 0)
  {
    var records: seq<Record> := [];
    var read := 0;
    assert pages[0..] == pages;
    while true
      invariant read <= |pages| && Gather(pages, [], 0) == Gather(pages[read..], records, read)
      decreases |pages| - read
    {
      if read == |pages| || pages[read].Unreadable? || |pages[read].records| > 300 { return Refused; }
      var page := pages[read];
      assert pages[read..][0] == page && pages[read..][1..] == pages[read + 1..];
      records := records + page.records;
      read := read + 1;
      if read > 34 || |records| > 10_000 { return Refused; }
      if !page.truncated { return Ok(records); }
      if !page.continues { return Refused; }
    }
  }

  method SelectStable(records: seq<Record>) returns (r: Result<Zone>)
    ensures r.Ok? <==> Unambiguous(records)
    ensures r.Ok? ==> Selects(records, r.value)
  {
    var selected: Zone := map[];
    NothingSelected(records);
    hide Unambiguous, Selects;
    for i := 0 to |records|
      invariant Unambiguous(records[..i]) && Selects(records[..i], selected)
    {
      var raw := records[i];
      SelectOne(records, i, selected);
      if IsStable(raw) {
        if !Supported(raw) || raw.Key() in selected { return Refused; }
        selected := selected[raw.Key() := raw.value];
      }
    }
    assert records[..|records|] == records;
    return Ok(selected);
  }

  lemma NothingSelected(records: seq<Record>)
    ensures Unambiguous(records[..0]) && Selects(records[..0], map[])
  {
  }

  /** One record more either extends the selection or makes the whole listing ambiguous. */
  lemma SelectOne(records: seq<Record>, i: nat, selected: Zone)
    requires i < |records| && Unambiguous(records[..i]) && Selects(records[..i], selected)
    ensures var raw := records[i];
            if !IsStable(raw) then Unambiguous(records[..i + 1]) && Selects(records[..i + 1], selected)
            else if !Supported(raw) || raw.Key() in selected then !Unambiguous(records)
            else Unambiguous(records[..i + 1]) && Selects(records[..i + 1], selected[raw.Key() := raw.value])
  {
    var raw := records[i];
    var longer := records[..i + 1];
    assert forall k :: 0 <= k < i ==> longer[k] == records[..i][k];
    if IsStable(raw) && Supported(raw) && raw.Key() in selected {
      var k :| 0 <= k < i && IsStable(records[..i][k]) && records[..i][k].Key() == raw.Key();
      assert records[k].Key() == records[i].Key();
    } else if IsStable(raw) && Supported(raw) {
      var zone := selected[raw.Key() := raw.value];
      forall key | key in zone
        ensures exists k :: 0 <= k < |longer| && IsStable(longer[k]) && longer[k].Key() == key
      {
        if key == raw.Key() {
          assert longer[i] == raw;
        } else {
          var k :| 0 <= k < i && IsStable(records[..i][k]) && records[..i][k].Key() == key;
          assert longer[k].Key() == key;
        }
      }
    } else if !IsStable(raw) {
      forall key | key in selected
        ensures exists k :: 0 <= k < |longer| && IsStable(longer[k]) && longer[k].Key() == key
      {
        var k :| 0 <= k < i && IsStable(records[..i][k]) && records[..i][k].Key() == key;
        assert longer[k].Key() == key;
      }
    }
  }

  /** A listing names every record of the hosted zone exactly once. */
  predicate Lists(records: seq<Record>, zone: Zone) {
    && (forall i :: 0 <= i < |records| ==> records[i].Key() in zone && zone[records[i].Key()] == records[i].value)
    && (forall i, j :: 0 <= i < j < |records| ==> records[i].Key() != records[j].Key())
    && forall key :: key in zone ==> exists i :: 0 <= i < |records| && records[i].Key() == key
  }

  /**
   Of a hosted zone whose stable names carry only A and TXT records, the selection is the zone
   without the unrelated names, in whatever order the pages arrive; any other stable record refuses.
   */
  lemma SelectionIsTheStableZone(records: seq<Record>, zone: Zone, selected: Zone)
    requires Lists(records, zone)
    ensures Unambiguous(records) <==> forall key :: key in zone && !key.0.Unrelated? ==> key.1 == A || key.1 == TXT
    ensures Selects(records, selected) <==> selected == map key | key in zone && !key.0.Unrelated? :: zone[key]
  {
    OnlySupportedTypes(records, zone);
    ExactlyTheStableNames(records, zone, selected);
  }

  lemma OnlySupportedTypes(records: seq<Record>, zone: Zone)
    requires Lists(records, zone)
    ensures Unambiguous(records) <==> forall key :: key in zone && !key.0.Unrelated? ==> key.1 == A || key.1 == TXT
  {
    if Unambiguous(records) {
      forall key | key in zone && !key.0.Unrelated?
        ensures key.1 == A || key.1 == TXT
      {
        var i :| 0 <= i < |records| && records[i].Key() == key;
        assert Supported(records[i]);
      }
    }
  }

  lemma ExactlyTheStableNames(records: seq<Record>, zone: Zone, selected: Zone)
    requires Lists(records, zone)
    ensures Selects(records, selected) <==> selected == map key | key in zone && !key.0.Unrelated? :: zone[key]
  {
    var stable := map key | key in zone && !key.0.Unrelated? :: zone[key];
    forall key | key in stable
      ensures exists i :: 0 <= i < |records| && IsStable(records[i]) && records[i].Key() == key
    {
      var i :| 0 <= i < |records| && records[i].Key() == key;
      assert IsStable(records[i]);
    }
    assert Selects(records, stable);
    if Selects(records, selected) { SelectedOnce(records, selected, stable); }
  }

  /** A list selects at most one zone. */
  lemma SelectedOnce(records: seq<Record>, a: Zone, b: Zone)
    requires Selects(records, a) && Selects(records, b)
    ensures a == b
  {
    forall key
      ensures key in a <==> key in b
      ensures key in a ==> a[key] == b[key]
    {
      if key in a {
        var i :| 0 <= i < |records| && IsStable(records[i]) && records[i].Key() == key;
      }
    }
  }
}
