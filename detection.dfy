/** The change-detection pass as a function of the seen-set at its start,
    the annonces fetched, and what the webhook answers; and what it promises:
    alerts only for unseen URLs, once each, in first-occurrence order; the
    seen-set only grows; an exception from the webhook stops the pass. */
module Detection {
  import opened Common
  import opened Annonces

  /** What `requests.post` to the webhook gives: a response with its status
      code, or an exception raised by the transport. */
  datatype Post = Response(status: int) | TransportError

  /** How `send_discord_alert` ends: normally after a success status, normally
      after reporting a status of 400 or more, or by letting the transport's
      exception escape. */
  datatype AlertOutcome = Ok | HttpError | Raised

  /** The webhook's answer to an alert for a given (url, title). */
  type Webhook = (string, string) -> Post

  function SendAlert(post: Post): AlertOutcome
  {
    match post
    case TransportError => Raised
    case Response(status) => if status >= 400 then HttpError else Ok
  }

  predicate Raises(webhook: Webhook, a: Annonce)
  {
    SendAlert(webhook(a.url, a.title)) == Raised
  }

  /** The result of one pass: the seen-set afterwards, the URLs whose alert
      call returned (in the order sent), and whether an exception ended it. */
  datatype Step = Step(seen: set<string>, alerted: seq<string>, raised: bool)

  /** The URL of each annonce, in order. */
  function Urls(annonces: seq<Annonce>): (u: seq<string>)
    ensures |u| == |annonces|
    ensures forall i :: 0 <= i < |annonces| ==> u[i] == annonces[i].url
  {
    if annonces == [] then [] else [annonces[0].url] + Urls(annonces[1..])
  }

  /** The loop at main.py 69-74 over `annonces`, with the exception of the
      webhook (if any) ending it before the URL is added. */
  function Detect(seen: set<string>, annonces: seq<Annonce>, webhook: Webhook): (r: Step)
    ensures seen <= r.seen
    ensures r.seen == seen + Elems(r.alerted)
    decreases |annonces|
  {
    if annonces == [] then Step(seen, [], false)
    else
      var a := annonces[0];
      if a.url in seen then Detect(seen, annonces[1..], webhook)
      else if Raises(webhook, a) then Step(seen, [], true)
      else
        var rest := Detect(seen + {a.url}, annonces[1..], webhook);
        ElemsConcat([a.url], rest.alerted);
        Step(rest.seen, [a.url] + rest.alerted, rest.raised)
  }

  /** The URLs of `urls` not in `seen`, each once, at its first occurrence. */
  function FirstNew(seen: set<string>, urls: seq<string>): seq<string>
    decreases |urls|
  {
    if urls == [] then []
    else if urls[0] in seen then FirstNew(seen, urls[1..])
    else [urls[0]] + FirstNew(seen + {urls[0]}, urls[1..])
  }

  lemma {:induction false} FirstNewMembers(seen: set<string>, urls: seq<string>)
    ensures forall x :: x in FirstNew(seen, urls) <==> x in urls && x !in seen
    decreases |urls|
  {
    if urls != [] {
      if urls[0] in seen {
        FirstNewMembers(seen, urls[1..]);
      } else {
        FirstNewMembers(seen + {urls[0]}, urls[1..]);
      }
    }
  }

  /** Every element of `r` occurs in `urls`, and they come in the order of
      their first occurrences there. */
  ghost predicate InFirstOccurrenceOrder(r: seq<string>, urls: seq<string>)
  {
    forall i, j :: 0 <= i < j < |r| ==>
      r[i] in urls && r[j] in urls && FirstIndex(urls, r[i]) < FirstIndex(urls, r[j])
  }

  /** An ordered list drawn from the tail of `urls`, avoiding its head, stays
      ordered against `urls`, and so does the list with the head in front. */
  lemma OrderCons(urls: seq<string>, r: seq<string>)
    requires urls != []
    requires forall x :: x in r ==> x in urls[1..] && x != urls[0]
    requires InFirstOccurrenceOrder(r, urls[1..])
    ensures InFirstOccurrenceOrder(r, urls)
    ensures InFirstOccurrenceOrder([urls[0]] + r, urls)
  {
    var t := urls[1..];
    forall x | x in r ensures FirstIndex(urls, x) == 1 + FirstIndex(t, x) {
    }
    forall i, j | 0 <= i < j < |r|
      ensures r[i] in urls && r[j] in urls && FirstIndex(urls, r[i]) < FirstIndex(urls, r[j])
    {
      assert FirstIndex(t, r[i]) < FirstIndex(t, r[j]);
    }
    var r1 := [urls[0]] + r;
    forall i, j | 0 <= i < j < |r1|
      ensures r1[i] in urls && r1[j] in urls && FirstIndex(urls, r1[i]) < FirstIndex(urls, r1[j])
    {
      assert r1[j] == r[j - 1];
      if i > 0 {
        assert r1[i] == r[i - 1];
      }
    }
  }

  /** The URLs come in the order of their first occurrences in `urls`. */
  lemma {:induction false} FirstNewOrder(seen: set<string>, urls: seq<string>)
    ensures InFirstOccurrenceOrder(FirstNew(seen, urls), urls)
    decreases |urls|
  {
    if urls != [] {
      var u0, t := urls[0], urls[1..];
      var seen' := if u0 in seen then seen else seen + {u0};
      FirstNewOrder(seen', t);
      FirstNewMembers(seen', t);
      OrderCons(urls, FirstNew(seen', t));
    }
  }

  lemma FirstNewNoDup(seen: set<string>, urls: seq<string>)
    ensures NoDup(FirstNew(seen, urls))
  {
    FirstNewOrder(seen, urls);
  }

  /** Annonce `j` carries a URL that is neither in `seen` nor earlier in the
      list: the loop reaches it with the URL still unseen. */
  ghost predicate FreshAt(seen: set<string>, annonces: seq<Annonce>, j: int)
  {
    0 <= j < |annonces| && annonces[j].url !in seen + Elems(Urls(annonces)[..j])
  }

  /** After the first `k` annonces, the set holds their URLs and the alerts
      are their fresh URLs in first-occurrence order. */
  ghost predicate Covers(seen: set<string>, annonces: seq<Annonce>, k: int, r: Step)
  {
    && 0 <= k <= |annonces|
    && r.seen == seen + Elems(Urls(annonces)[..k])
    && r.alerted == FirstNew(seen, Urls(annonces)[..k])
  }

  /** No fresh annonce before position `k` made the webhook raise. */
  ghost predicate QuietBefore(seen: set<string>, annonces: seq<Annonce>, webhook: Webhook, k: int)
  {
    forall j :: 0 <= j < k && FreshAt(seen, annonces, j) ==> !Raises(webhook, annonces[j])
  }

  /** The pass ran over exactly the first `k` annonces: every fresh URL among
      them was alerted without an exception and added; if `k` is short of the
      end, annonce `k` is fresh and its alert raised. */
  ghost predicate StopsAt(seen: set<string>, annonces: seq<Annonce>, webhook: Webhook, k: int, r: Step)
  {
    && Covers(seen, annonces, k, r)
    && (r.raised <==> k < |annonces|)
    && (k < |annonces| ==> FreshAt(seen, annonces, k) && Raises(webhook, annonces[k]))
    && QuietBefore(seen, annonces, webhook, k)
  }

  lemma UrlsPrefix(annonces: seq<Annonce>, k: int)
    requires 1 <= k <= |annonces|
    ensures Urls(annonces)[..k] == [annonces[0].url] + Urls(annonces[1..])[..k - 1]
  {
    assert Urls(annonces) == [annonces[0].url] + Urls(annonces[1..]);
  }

  lemma FirstNewCons(seen: set<string>, x: string, s: seq<string>)
    ensures FirstNew(seen, [x] + s) ==
      if x in seen then FirstNew(seen, s) else [x] + FirstNew(seen + {x}, s)
  {
    assert ([x] + s)[1..] == s;
  }

  /** Moving past annonce 0, whose URL is now in `seen'`, shifts freshness by one. */
  lemma FreshShift(seen: set<string>, seen': set<string>, annonces: seq<Annonce>, j: int)
    requires 1 <= j < |annonces|
    requires seen' == seen + {annonces[0].url}
    ensures FreshAt(seen, annonces, j) <==> FreshAt(seen', annonces[1..], j - 1)
  {
    UrlsPrefix(annonces, j);
    ElemsConcat([annonces[0].url], Urls(annonces[1..])[..j - 1]);
  }

  lemma CoversCons(seen: set<string>, annonces: seq<Annonce>, k': int, r': Step)
    requires annonces != []
    requires Covers(seen + {annonces[0].url}, annonces[1..], k', r')
    ensures Covers(seen, annonces, k' + 1,
      Step(r'.seen, (if annonces[0].url in seen then [] else [annonces[0].url]) + r'.alerted, r'.raised))
  {
    var a, rest, k := annonces[0], annonces[1..], k' + 1;
    UrlsPrefix(annonces, k);
    ElemsConcat([a.url], Urls(rest)[..k']);
    FirstNewCons(seen, a.url, Urls(rest)[..k']);
    if a.url in seen {
      assert seen + {a.url} == seen;
    }
  }

  lemma QuietBeforeCons(seen: set<string>, annonces: seq<Annonce>, webhook: Webhook, k': int)
    requires annonces != [] && 0 <= k' < |annonces|
    requires annonces[0].url in seen || !Raises(webhook, annonces[0])
    requires QuietBefore(seen + {annonces[0].url}, annonces[1..], webhook, k')
    ensures QuietBefore(seen, annonces, webhook, k' + 1)
  {
    forall j | 0 <= j < k' + 1 && FreshAt(seen, annonces, j)
      ensures !Raises(webhook, annonces[j])
    {
      if j > 0 {
        FreshShift(seen, seen + {annonces[0].url}, annonces, j);
        assert annonces[j] == annonces[1..][j - 1];
      }
    }
  }

  /** Stopping points carry over from the rest of the list to the whole list
      once annonce 0 has been handled without an exception. */
  lemma StopsAtCons(seen: set<string>, annonces: seq<Annonce>, webhook: Webhook, k': int, r': Step)
    requires annonces != []
    requires annonces[0].url in seen || !Raises(webhook, annonces[0])
    requires StopsAt(seen + {annonces[0].url}, annonces[1..], webhook, k', r')
    ensures StopsAt(seen, annonces, webhook, k' + 1,
      Step(r'.seen, (if annonces[0].url in seen then [] else [annonces[0].url]) + r'.alerted, r'.raised))
  {
    var k := k' + 1;
    CoversCons(seen, annonces, k', r');
    QuietBeforeCons(seen, annonces, webhook, k');
    if k < |annonces| {
      FreshShift(seen, seen + {annonces[0].url}, annonces, k);
      assert annonces[k] == annonces[1..][k'];
    }
  }

  /** Every pass stops at a definite point and its result is determined by it. */
  lemma {:induction false} DetectStops(seen: set<string>, annonces: seq<Annonce>, webhook: Webhook)
    ensures exists k :: StopsAt(seen, annonces, webhook, k, Detect(seen, annonces, webhook))
    decreases |annonces|
  {
    var r := Detect(seen, annonces, webhook);
    if annonces == [] {
      assert StopsAt(seen, annonces, webhook, 0, r);
    } else {
      var a, rest := annonces[0], annonces[1..];
      var seen' := seen + {a.url};
      if a.url !in seen && Raises(webhook, a) {
        assert Urls(annonces)[..0] == [];
        assert StopsAt(seen, annonces, webhook, 0, r);
      } else {
        DetectStops(seen', rest, webhook);
        var r' := Detect(seen', rest, webhook);
        var k' :| StopsAt(seen', rest, webhook, k', r');
        StopsAtCons(seen, annonces, webhook, k', r');
        if a.url in seen {
          assert seen' == seen;
        }
        assert r == Step(r'.seen, (if a.url in seen then [] else [a.url]) + r'.alerted, r'.raised);
      }
    }
  }

  lemma {:induction false} FirstIndexPrefix(s: seq<string>, k: int, x: string)
    requires 0 <= k <= |s| && x in s[..k]
    ensures x in s && FirstIndex(s[..k], x) == FirstIndex(s, x)
    decreases k
  {
    if s[0] != x {
      assert s[..k][1..] == s[1..][..k - 1];
      FirstIndexPrefix(s[1..], k - 1, x);
    }
  }

  /** One step of the pass, taken at annonce `i`. */
  lemma DetectAt(seen: set<string>, annonces: seq<Annonce>, webhook: Webhook, i: int)
    requires 0 <= i < |annonces|
    ensures var a := annonces[i];
      Detect(seen, annonces[i..], webhook) ==
        if a.url in seen then Detect(seen, annonces[i + 1..], webhook)
        else if Raises(webhook, a) then Step(seen, [], true)
        else
          var rest := Detect(seen + {a.url}, annonces[i + 1..], webhook);
          Step(rest.seen, [a.url] + rest.alerted, rest.raised)
  {
    assert annonces[i..][1..] == annonces[i + 1..];
  }

  /** The pass that started from `seen0` has handled the first `i` annonces,
      reaching `seen` with the alerts `sent`; what remains is the pass from
      `seen` over the rest. */
  ghost predicate Resumes(seen0: set<string>, annonces: seq<Annonce>, webhook: Webhook, i: int, seen: set<string>, sent: seq<string>)
  {
    0 <= i <= |annonces| &&
    var rest := Detect(seen, annonces[i..], webhook);
    Detect(seen0, annonces, webhook) == Step(rest.seen, sent + rest.alerted, rest.raised)
  }

  /** Annonce `i` is already seen: the pass resumes after it unchanged. */
  lemma ResumesSkip(seen0: set<string>, annonces: seq<Annonce>, webhook: Webhook, i: int, seen: set<string>, sent: seq<string>)
    requires Resumes(seen0, annonces, webhook, i, seen, sent) && i < |annonces|
    requires annonces[i].url in seen
    ensures Resumes(seen0, annonces, webhook, i + 1, seen, sent)
  {
    DetectAt(seen, annonces, webhook, i);
  }

  /** Annonce `i` is unseen and its alert returns: the pass resumes after it
      with its URL added and alerted. */
  lemma ResumesAlert(seen0: set<string>, annonces: seq<Annonce>, webhook: Webhook, i: int, seen: set<string>, sent: seq<string>)
    requires Resumes(seen0, annonces, webhook, i, seen, sent) && i < |annonces|
    requires annonces[i].url !in seen && !Raises(webhook, annonces[i])
    ensures Resumes(seen0, annonces, webhook, i + 1, seen + {annonces[i].url}, sent + [annonces[i].url])
  {
    var u := annonces[i].url;
    DetectAt(seen, annonces, webhook, i);
    var rest := Detect(seen + {u}, annonces[i + 1..], webhook);
    assert sent + ([u] + rest.alerted) == (sent + [u]) + rest.alerted;
  }

  /** Annonce `i` is unseen and its alert raises: the pass ends here. */
  lemma ResumesRaised(seen0: set<string>, annonces: seq<Annonce>, webhook: Webhook, i: int, seen: set<string>, sent: seq<string>)
    requires Resumes(seen0, annonces, webhook, i, seen, sent) && i < |annonces|
    requires annonces[i].url !in seen && Raises(webhook, annonces[i])
    ensures Detect(seen0, annonces, webhook) == Step(seen, sent, true)
  {
    DetectAt(seen, annonces, webhook, i);
  }

  /** A pass alerts each URL at most once, never one that was already seen,
      and in the order in which the URLs first occur among the annonces. */
  lemma AlertedOnceInOrder(seen: set<string>, annonces: seq<Annonce>, webhook: Webhook)
    ensures var r := Detect(seen, annonces, webhook);
      && NoDup(r.alerted)
      && Elems(r.alerted) !! seen
      && InFirstOccurrenceOrder(r.alerted, Urls(annonces))
  {
    var r := Detect(seen, annonces, webhook);
    DetectStops(seen, annonces, webhook);
    var k :| StopsAt(seen, annonces, webhook, k, r);
    var u := Urls(annonces);
    FirstNewNoDup(seen, u[..k]);
    FirstNewMembers(seen, u[..k]);
    FirstNewOrder(seen, u[..k]);
    forall x | x in u[..k] ensures x in u && FirstIndex(u[..k], x) == FirstIndex(u, x) {
      FirstIndexPrefix(u, k, x);
    }
  }

  /** A pass that ends normally has added every URL of the annonces and
      alerted exactly the unseen ones, in first-occurrence order. */
  lemma DetectCompletes(seen: set<string>, annonces: seq<Annonce>, webhook: Webhook)
    ensures var r := Detect(seen, annonces, webhook);
      !r.raised ==>
        && r.seen == seen + Elems(Urls(annonces))
        && r.alerted == FirstNew(seen, Urls(annonces))
  {
    var r := Detect(seen, annonces, webhook);
    DetectStops(seen, annonces, webhook);
    var k :| StopsAt(seen, annonces, webhook, k, r);
    assert Urls(annonces)[..|annonces|] == Urls(annonces);
  }

  /** A pass ended by an exception has added the URLs before the annonce
      being alerted and not that annonce's URL. */
  lemma DetectAborts(seen: set<string>, annonces: seq<Annonce>, webhook: Webhook)
    ensures var r := Detect(seen, annonces, webhook);
      r.raised ==>
        exists k ::
          && 0 <= k < |annonces|
          && Raises(webhook, annonces[k])
          && annonces[k].url !in r.seen
          && r.seen == seen + Elems(Urls(annonces)[..k])
          && r.alerted == FirstNew(seen, Urls(annonces)[..k])
  {
    var r := Detect(seen, annonces, webhook);
    DetectStops(seen, annonces, webhook);
    var k :| StopsAt(seen, annonces, webhook, k, r);
  }

  /** The set changes exactly when some alert was sent: `new_found` is
      raised exactly when the seen-set grew. */
  lemma ChangedIffAlerted(seen: set<string>, annonces: seq<Annonce>, webhook: Webhook)
    ensures var r := Detect(seen, annonces, webhook);
      r.seen != seen <==> r.alerted != []
  {
    var r := Detect(seen, annonces, webhook);
    AlertedOnceInOrder(seen, annonces, webhook);
    if r.alerted != [] {
      assert r.alerted[0] in Elems(r.alerted);
    }
  }

  /** If every URL is already seen, the pass changes nothing and alerts nobody. */
  lemma {:induction false} NothingNew(seen: set<string>, annonces: seq<Annonce>, webhook: Webhook)
    requires forall i :: 0 <= i < |annonces| ==> annonces[i].url in seen
    ensures Detect(seen, annonces, webhook) == Step(seen, [], false)
    decreases |annonces|
  {
    if annonces != [] {
      NothingNew(seen, annonces[1..], webhook);
    }
  }

  /** Error statuses from the webhook do not stop the pass: unless a transport
      exception occurs, every URL ends up seen. */
  lemma {:induction false} HttpErrorsDoNotAbort(seen: set<string>, annonces: seq<Annonce>, webhook: Webhook)
    requires forall i :: 0 <= i < |annonces| ==> !webhook(annonces[i].url, annonces[i].title).TransportError?
    ensures !Detect(seen, annonces, webhook).raised
    ensures Detect(seen, annonces, webhook).seen == seen + Elems(Urls(annonces))
    decreases |annonces|
  {
    if annonces != [] {
      var seen' := if annonces[0].url in seen then seen else seen + {annonces[0].url};
      HttpErrorsDoNotAbort(seen', annonces[1..], webhook);
    }
    DetectCompletes(seen, annonces, webhook);
  }

  /** Over two consecutive passes no URL is alerted twice. */
  lemma TwoPassesAlertOnce(seen: set<string>, first: seq<Annonce>, w1: Webhook, second: seq<Annonce>, w2: Webhook)
    ensures var r1 := Detect(seen, first, w1);
      var r2 := Detect(r1.seen, second, w2);
      NoDup(r1.alerted + r2.alerted)
  {
    var r1 := Detect(seen, first, w1);
    var r2 := Detect(r1.seen, second, w2);
    AlertedOnceInOrder(seen, first, w1);
    AlertedOnceInOrder(r1.seen, second, w2);
    NoDupConcat(r1.alerted, r2.alerted);
  }

  /** Two passes over pages "1, 2" and then "2, 3", starting from nothing:
      the set is merged, so "1" stays seen after the second pass. */
  lemma MergeScenario()
    ensures var w: Webhook := (u, t) => Response(200);
      var r1 := Detect({}, [Annonce("1", "a"), Annonce("2", "b")], w);
      var r2 := Detect(r1.seen, [Annonce("2", "b"), Annonce("3", "c")], w);
      && r1.alerted == ["1", "2"] && r1.seen == {"1", "2"}
      && r2.alerted == ["3"] && r2.seen == {"1", "2", "3"}
  {
  }
}
