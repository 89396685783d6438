/** What `fetch_annonces` does with the links the page selector returned:
    keep those whose `href` contains "annonces", as (absolute URL, title)
    pairs in document order. */
module Annonces {

  /** One `<a>` element returned by the page's CSS selector: its raw `href`,
      the absolute URL that `href` resolves to against the page URL, and its
      stripped text. */
  datatype Anchor = Anchor(href: string, fullUrl: string, text: string)

  /** One listing as the pass sees it: the dedupe key and the display title. */
  datatype Annonce = Annonce(url: string, title: string)

  const Marker: string := "annonces"

  /** `sub` occurs in `s` at position `i`. */
  ghost predicate OccursAt(sub: string, s: string, i: int)
  {
    0 <= i <= |s| - |sub| && s[i..i + |sub|] == sub
  }

  /** Python's substring test `sub in s`. */
  predicate IsInfix(sub: string, s: string)
    decreases |s|
  {
    |sub| <= |s| && (sub == s[..|sub|] || (|s| > 0 && IsInfix(sub, s[1..])))
  }

  /** `IsInfix` is exactly "occurs at some position". */
  lemma {:induction false} IsInfixIffOccurs(sub: string, s: string)
    ensures IsInfix(sub, s) <==> exists i :: OccursAt(sub, s, i)
    decreases |s|
  {
    if IsInfix(sub, s) {
      if sub == s[..|sub|] {
        assert OccursAt(sub, s, 0);
      } else {
        IsInfixIffOccurs(sub, s[1..]);
        var i :| OccursAt(sub, s[1..], i);
        assert s[1..][i..i + |sub|] == s[i + 1..i + 1 + |sub|];
        assert OccursAt(sub, s, i + 1);
      }
    }
    if exists i :: OccursAt(sub, s, i) {
      var i :| OccursAt(sub, s, i);
      if i > 0 {
        assert s[1..][i - 1..i - 1 + |sub|] == s[i..i + |sub|];
        assert OccursAt(sub, s[1..], i - 1);
        IsInfixIffOccurs(sub, s[1..]);
      }
    }
  }

  /** The filter applied to each anchor (main.py line 38). */
  predicate Selected(a: Anchor)
  {
    IsInfix(Marker, a.href)
  }

  /** Every `href` the selector `a[href*='/annonces/']` can return passes the
      filter, so on real selector output nothing is dropped. */
  lemma SelectorImpliesSelected(a: Anchor)
    requires IsInfix("/annonces/", a.href)
    ensures Selected(a)
  {
    IsInfixIffOccurs("/annonces/", a.href);
    var i :| OccursAt("/annonces/", a.href, i);
    assert a.href[i + 1..i + 9] == a.href[i..i + 10][1..9];
    assert OccursAt(Marker, a.href, i + 1);
    IsInfixIffOccurs(Marker, a.href);
  }

  function AnnonceOf(a: Anchor): Annonce
  {
    Annonce(a.fullUrl, a.text)
  }

  /** The list `fetch_annonces` builds from the anchors, defined from the end
      so that it follows the order in which the loop appends. */
  function Kept(anchors: seq<Anchor>): seq<Annonce>
  {
    if anchors == [] then []
    else
      var last := anchors[|anchors| - 1];
      Kept(anchors[..|anchors| - 1]) + (if Selected(last) then [AnnonceOf(last)] else [])
  }

  /** The accumulation loop of `fetch_annonces`. */
  method FetchAnnonces(anchors: seq<Anchor>) returns (annonces: seq<Annonce>)
    ensures annonces == Kept(anchors)
  {
    annonces := [];
    for i := 0 to |anchors|
      invariant annonces == Kept(anchors[..i])
    {
      var a := anchors[i];
      assert anchors[..i + 1][..i] == anchors[..i];
      if IsInfix(Marker, a.href) {
        annonces := annonces + [AnnonceOf(a)];
      }
    }
    assert anchors[..|anchors|] == anchors;
  }

  /** Filtering distributes over concatenation: what is kept from an earlier
      part of the page comes before what is kept from a later part. */
  lemma {:induction false} KeptConcat(s: seq<Anchor>, t: seq<Anchor>)
    ensures Kept(s + t) == Kept(s) + Kept(t)
    decreases |t|
  {
    if t == [] {
      assert s + t == s;
    } else {
      var t' := t[..|t| - 1];
      assert (s + t)[..|s + t| - 1] == s + t';
      KeptConcat(s, t');
    }
  }

  /** An annonce is kept exactly when some selected anchor produces it. */
  lemma {:induction false} KeptMembers(s: seq<Anchor>, x: Annonce)
    ensures x in Kept(s) <==> exists i :: 0 <= i < |s| && Selected(s[i]) && AnnonceOf(s[i]) == x
    decreases |s|
  {
    if s != [] {
      var s' := s[..|s| - 1];
      KeptMembers(s', x);
      if x in Kept(s') {
        var i :| 0 <= i < |s'| && Selected(s'[i]) && AnnonceOf(s'[i]) == x;
        assert s[i] == s'[i];
      }
      if exists i :: 0 <= i < |s| && Selected(s[i]) && AnnonceOf(s[i]) == x {
        var i :| 0 <= i < |s| && Selected(s[i]) && AnnonceOf(s[i]) == x;
        if i < |s| - 1 {
          assert s'[i] == s[i];
        }
      }
    }
  }

  /** Every anchor contributes at most one annonce. */
  lemma {:induction false} KeptLength(s: seq<Anchor>)
    ensures |Kept(s)| <= |s|
    ensures (forall i :: 0 <= i < |s| ==> Selected(s[i])) ==> |Kept(s)| == |s|
    decreases |s|
  {
    if s != [] {
      KeptLength(s[..|s| - 1]);
    }
  }
}
