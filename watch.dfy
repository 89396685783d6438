/** The program's state and its main loop: the seen-set `seen_annonces`
    held in memory, the contents of `seen.json`, and the passes that update
    them. */
module Watch {
  import opened Common
  import opened Annonces
  import opened SeenStore
  import opened Detection

  /** What fetching the listing page gives: the anchors its selector
      returned, or an exception (from the request or from `raise_for_status`). */
  datatype Page = Page(anchors: seq<Anchor>) | FetchError

  /** The outside world during one pass: the page and the webhook's answers. */
  datatype Round = Round(page: Page, webhook: Webhook)

  /** What one iteration of the main loop does to the seen-set: nothing on a
      fetch exception, otherwise the pass over the filtered annonces. */
  function RoundStep(seen: set<string>, round: Round): Step
  {
    match round.page
    case FetchError => Step(seen, [], true)
    case Page(anchors) => Detect(seen, Kept(anchors), round.webhook)
  }

  /** The first `n` rounds of a run from the seen-set `seen0`: the set
      reached and every alert that returned, in order. */
  function RunFrom(seen0: set<string>, rounds: seq<Round>, n: nat): Step
    requires n <= |rounds|
  {
    if n == 0 then Step(seen0, [], false)
    else
      var prev := RunFrom(seen0, rounds, n - 1);
      var last := RoundStep(prev.seen, rounds[n - 1]);
      Step(last.seen, prev.alerted + last.alerted, last.raised)
  }

  /** A pass saves when it raised no exception and found something new. */
  predicate Saves(r: Step)
  {
    !r.raised && r.alerted != []
  }

  /** What `seen.json` holds after the first `n` rounds of a run from the
      seen-set `seen0` and the stored set `disk0`: the set reached by the last
      round that saved, or `disk0` if none did. */
  function DiskAfter(seen0: set<string>, disk0: set<string>, rounds: seq<Round>, n: nat): set<string>
    requires n <= |rounds|
  {
    if n == 0 then disk0
    else
      var last := RoundStep(RunFrom(seen0, rounds, n - 1).seen, rounds[n - 1]);
      if Saves(last) then last.seen else DiskAfter(seen0, disk0, rounds, n - 1)
  }

  /** Over any run, no URL is alerted twice, no URL of the starting set is
      alerted at all, and the set reached is the starting set plus exactly
      the alerted URLs. This is about memory within one run: `seen.json` may
      lag behind it (see `DiskAfter`), so a restart can alert a URL again. */
  lemma {:induction false} RunAlertsOnce(seen0: set<string>, rounds: seq<Round>, n: nat)
    requires n <= |rounds|
    ensures var r := RunFrom(seen0, rounds, n);
      && NoDup(r.alerted)
      && Elems(r.alerted) !! seen0
      && r.seen == seen0 + Elems(r.alerted)
  {
    if n > 0 {
      var prev := RunFrom(seen0, rounds, n - 1);
      var round := rounds[n - 1];
      RunAlertsOnce(seen0, rounds, n - 1);
      var last := RoundStep(prev.seen, round);
      if round.page.Page? {
        AlertedOnceInOrder(prev.seen, Kept(round.page.anchors), round.webhook);
      }
      NoDupConcat(prev.alerted, last.alerted);
      ElemsConcat(prev.alerted, last.alerted);
    }
  }

  /** A pass alerts `u1`, then the post for `u2` raises: `u1` stays in memory
      but nothing is saved, so a restart on the stored (empty) set alerts `u1`
      a second time. */
  lemma RestartRealertsScenario()
    ensures var flaky: Webhook := (u, t) => if u == "u2" then TransportError else Response(200);
      var ok: Webhook := (u, t) => Response(200);
      var first := [Round(Page([Anchor("/annonces/1", "u1", "t1"), Anchor("/annonces/2", "u2", "t2")]), flaky)];
      var again := [Round(Page([Anchor("/annonces/1", "u1", "t1")]), ok)];
      && RunFrom({}, first, 1) == Step({"u1"}, ["u1"], true)
      && DiskAfter({}, {}, first, 1) == {}
      && RunFrom(DiskAfter({}, {}, first, 1), again, 1).alerted == ["u1"]
  {
    var flaky: Webhook := (u, t) => if u == "u2" then TransportError else Response(200);
    var ok: Webhook := (u, t) => Response(200);
    var a1, a2 := Anchor("/annonces/1", "u1", "t1"), Anchor("/annonces/2", "u2", "t2");
    SelectorImpliesSelected(a1);
    SelectorImpliesSelected(a2);
    assert Kept([a1]) == [Annonce("u1", "t1")] by {
      assert [a1][..0] == [];
    }
    assert Kept([a1, a2]) == [Annonce("u1", "t1"), Annonce("u2", "t2")] by {
      assert [a1, a2][..1] == [a1];
    }
    var first := [Round(Page([a1, a2]), flaky)];
    var again := [Round(Page([a1]), ok)];
    assert RoundStep({}, first[0]) == Step({"u1"}, ["u1"], true) by {
      var both := [Annonce("u1", "t1"), Annonce("u2", "t2")];
      assert !Raises(flaky, both[0]) && Raises(flaky, both[1]);
      assert both[1..] == [Annonce("u2", "t2")];
      assert Detect({"u1"}, both[1..], flaky) == Step({"u1"}, [], true);
    }
    assert RunFrom({}, first, 1) == Step({"u1"}, ["u1"], true);
    assert DiskAfter({}, {}, first, 1) == {};
    assert RoundStep({}, again[0]).alerted == ["u1"] by {
      assert Detect({"u1"}, [], ok) == Step({"u1"}, [], false);
    }
  }

  /** No URL was alerted twice, every alerted URL is remembered, and what is
      on disk is never ahead of what is in memory. */
  ghost predicate Consistent(alerted: seq<string>, seen: set<string>, file: SeenFile)
  {
    NoDup(alerted) && Elems(alerted) <= seen && Load(file) <= seen
  }

  /** Alerting an unseen URL and adding it keeps the state consistent. */
  lemma ConsistentAlert(alerted: seq<string>, seen: set<string>, file: SeenFile, u: string)
    requires Consistent(alerted, seen, file) && u !in seen
    ensures Consistent(alerted + [u], seen + {u}, file)
  {
    ElemsConcat(alerted, [u]);
    NoDupConcat(alerted, [u]);
  }

  class Monitor {
    /** `seen_annonces`, the URLs alerted so far. */
    var seen: set<string>
    /** The contents of `seen.json`. */
    var file: SeenFile
    /** Every URL whose alert returned (with any status), over the whole run. */
    ghost var alerted: seq<string>

    ghost predicate Valid()
      reads this
    {
      Consistent(alerted, seen, file)
    }

    /** Start-up: load the seen-set from the file, if it exists. */
    constructor (stored: SeenFile)
      ensures Valid()
      ensures seen == Load(stored) && file == stored && alerted == []
      ensures stored.None? ==> seen == {}
      ensures stored.Some? ==> seen == Elems(stored.value)
    {
      seen := Load(stored);
      file := stored;
      alerted := [];
    }

    /** `save_seen`: overwrite the file with a listing of the in-memory set. */
    method Save()
      requires Valid()
      modifies this`file
      ensures Valid()
      ensures file.Some? && NoDup(file.value) && Load(file) == seen
    {
      var xs := ListOf(seen);
      file := Some(xs);
    }

    /** Lines 69-74: alert each unseen URL and add it. An exception from the
        webhook ends the loop (`raised`) at once, before its URL is added. */
    method Scan(annonces: seq<Annonce>, webhook: Webhook) returns (sent: seq<string>, raised: bool)
      requires Valid()
      modifies this`seen, this`alerted
      ensures Valid()
      ensures Detect(old(seen), annonces, webhook) == Step(seen, sent, raised)
      ensures alerted == old(alerted) + sent
    {
      sent, raised := [], false;
      var i := 0;
      assert annonces[0..] == annonces;
      while i < |annonces|
        invariant Resumes(old(seen), annonces, webhook, i, seen, sent)
        invariant Consistent(alerted, seen, file)
        invariant alerted == old(alerted) + sent
      {
        var a := annonces[i];
        if a.url in seen {
          ResumesSkip(old(seen), annonces, webhook, i, seen, sent);
        } else if SendAlert(webhook(a.url, a.title)) == Raised {
          ResumesRaised(old(seen), annonces, webhook, i, seen, sent);
          raised := true;
          return;
        } else {
          ResumesAlert(old(seen), annonces, webhook, i, seen, sent);
          ConsistentAlert(alerted, seen, file, a.url);
          seen := seen + {a.url};
          alerted := alerted + [a.url];
          sent := sent + [a.url];
        }
        i := i + 1;
      }
    }

    /** Lines 67-77: the loop, then a save if anything was new (`new_found`).
        After an exception nothing is saved. */
    method Pass(annonces: seq<Annonce>, webhook: Webhook) returns (sent: seq<string>, raised: bool, saved: bool)
      requires Valid()
      modifies this
      ensures Valid()
      ensures Detect(old(seen), annonces, webhook) == Step(seen, sent, raised)
      ensures alerted == old(alerted) + sent
      ensures old(seen) <= seen && NoDup(sent) && Elems(sent) !! old(seen)
      ensures !raised ==> seen == old(seen) + Elems(Urls(annonces)) && sent == FirstNew(old(seen), Urls(annonces))
      ensures saved <==> !raised && sent != []
      ensures saved <==> !raised && seen != old(seen)
      ensures saved ==> file.Some? && Load(file) == seen
      ensures !saved ==> file == old(file)
    {
      ghost var seen0 := seen;
      sent, raised := Scan(annonces, webhook);
      ChangedIffAlerted(seen0, annonces, webhook);
      AlertedOnceInOrder(seen0, annonces, webhook);
      DetectCompletes(seen0, annonces, webhook);
      var newFound := sent != [];
      saved := !raised && newFound;
      if saved {
        Save();
      }
    }

    /** One iteration of the `while True` body (lines 65-80): fetch, run the
        pass; any exception, from the fetch or from an alert, is caught. */
    method Poll(page: Page, webhook: Webhook) returns (sent: seq<string>, raised: bool, saved: bool)
      requires Valid()
      modifies this
      ensures Valid()
      ensures page.FetchError? ==>
        seen == old(seen) && file == old(file) && alerted == old(alerted) && sent == [] && raised && !saved
      ensures page.Page? ==>
        Detect(old(seen), Kept(page.anchors), webhook) == Step(seen, sent, raised)
      ensures RoundStep(old(seen), Round(page, webhook)) == Step(seen, sent, raised)
      ensures saved <==> Saves(Step(seen, sent, raised))
      ensures page.Page? && !raised ==>
        seen == old(seen) + Elems(Urls(Kept(page.anchors))) && sent == FirstNew(old(seen), Urls(Kept(page.anchors)))
      ensures alerted == old(alerted) + sent
      ensures seen == old(seen) + Elems(sent)
      ensures old(seen) <= seen && NoDup(sent) && Elems(sent) !! old(seen)
      ensures saved <==> !raised && sent != []
      ensures saved <==> !raised && seen != old(seen)
      ensures saved ==> file.Some? && Load(file) == seen
      ensures !saved ==> file == old(file)
    {
      match page
      case FetchError =>
        sent, raised, saved := [], true, false;
      case Page(anchors) =>
        var annonces := FetchAnnonces(anchors);
        sent, raised, saved := Pass(annonces, webhook);
    }

    /** One iteration of the main loop, stated through `RoundStep` and
        `Saves` so that `Run` takes one round at a time. */
    method Tick(round: Round)
      requires Valid()
      modifies this
      ensures Valid()
      ensures var r := RoundStep(old(seen), round);
        && seen == r.seen
        && alerted == old(alerted) + r.alerted
        && (Saves(r) ==> Load(file) == seen)
        && (!Saves(r) ==> file == old(file))
    {
      assert round == Round(round.page, round.webhook);
      var sent, raised, saved := Poll(round.page, round.webhook);
    }

    /** The main loop over a finite run of passes (the sleep between passes
        is not modelled): the seen-set grows by exactly the URLs alerted
        during the run, the alert log only grows, no URL is ever alerted
        twice, and the file holds the set of the last pass that saved. */
    method Run(rounds: seq<Round>)
      requires Valid()
      modifies this
      ensures Valid()
      ensures old(seen) <= seen
      ensures old(alerted) <= alerted && NoDup(alerted)
      ensures seen == old(seen) + Elems(alerted[|old(alerted)|..])
      ensures Elems(alerted[|old(alerted)|..]) !! old(seen)
      ensures seen == RunFrom(old(seen), rounds, |rounds|).seen
      ensures alerted == old(alerted) + RunFrom(old(seen), rounds, |rounds|).alerted
      ensures Load(file) == DiskAfter(old(seen), Load(old(file)), rounds, |rounds|)
    {
      for n := 0 to |rounds|
        invariant Valid()
        invariant seen == RunFrom(old(seen), rounds, n).seen
        invariant alerted == old(alerted) + RunFrom(old(seen), rounds, n).alerted
        invariant Load(file) == DiskAfter(old(seen), Load(old(file)), rounds, n)
      {
        Tick(rounds[n]);
      }
      RunAlertsOnce(old(seen), rounds, |rounds|);
      assert alerted[|old(alerted)|..] == RunFrom(old(seen), rounds, |rounds|).alerted;
    }
  }
}
