/** The persisted seen-set, `seen.json`: loading it when the program starts
    and turning the in-memory set into the list `save_seen` writes. */
module SeenStore {
  import opened Common

  /** The file's contents as far as the program is concerned: `None` when the
      file does not exist, otherwise the list of URLs it holds. */
  type SeenFile = Option<seq<string>>

  /** The top-level load: a missing file gives the empty set, otherwise the
      set of the stored list; repeated entries collapse. */
  function Load(file: SeenFile): set<string>
  {
    match file
    case None => {}
    case Some(xs) => Elems(xs)
  }

  /** `list(seen_annonces)`: some listing of the set, in an order the model
      leaves open, without repeats; loading it back gives the same set. */
  method ListOf(s: set<string>) returns (xs: seq<string>)
    ensures Elems(xs) == s && NoDup(xs) && |xs| == |s|
    ensures Load(Some(xs)) == s
  {
    xs := [];
    var rest := s;
    while rest != {}
      invariant rest !! Elems(xs) && rest + Elems(xs) == s
      invariant NoDup(xs)
      invariant |xs| + |rest| == |s|
      decreases |rest|
    {
      var x :| x in rest;
      ElemsConcat(xs, [x]);
      NoDupConcat(xs, [x]);
      assert |rest - {x}| == |rest| - 1;
      xs := xs + [x];
      rest := rest - {x};
    }
  }
}
