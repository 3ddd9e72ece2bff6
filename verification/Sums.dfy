/** Sums over the live threads of what each contributes. */
module Sums {
  import opened Registry
  import opened Protocol

  ghost function Total(ws: map<Tid, Worker>, share: Worker -> int): int
    decreases |ws|
  {
    if ws == map[] then 0
    else
      var t :| t in ws;
      share(ws[t]) + Total(ws - {t}, share)
  }

  lemma {:induction false} TotalRemove(ws: map<Tid, Worker>, share: Worker -> int, t: Tid)
    requires t in ws
    ensures Total(ws, share) == share(ws[t]) + Total(ws - {t}, share)
    decreases |ws|
  {
    var u :| u in ws && Total(ws, share) == share(ws[u]) + Total(ws - {u}, share);
    if u != t {
      TotalRemove(ws - {u}, share, t);
      TotalRemove(ws - {t}, share, u);
      assert ws - {u} - {t} == ws - {t} - {u};
    }
  }

  lemma TotalUpdate(ws: map<Tid, Worker>, share: Worker -> int, t: Tid, w: Worker)
    ensures Total(ws[t := w], share) == Total(ws, share) + share(w) - if t in ws then share(ws[t]) else 0
  {
    TotalRemove(ws[t := w], share, t);
    assert ws[t := w] - {t} == ws - {t};
    if t in ws {
      TotalRemove(ws, share, t);
    } else {
      assert ws - {t} == ws;
    }
  }

  lemma {:induction false} TotalNonNegative(ws: map<Tid, Worker>, share: Worker -> int)
    requires forall t :: t in ws ==> share(ws[t]) >= 0
    ensures Total(ws, share) >= 0
    ensures (forall t :: t in ws ==> share(ws[t]) == 0) ==> Total(ws, share) == 0
    decreases |ws|
  {
    if ws != map[] {
      var t :| t in ws;
      TotalRemove(ws, share, t);
      TotalNonNegative(ws - {t}, share);
    }
  }
}
