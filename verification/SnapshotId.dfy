/** Snapshot ids: `strings.Cut(id, "@")` as restore and delete use it, and the id the middleware client rebuilds. */
module SnapshotId {
  import opened Basics

  /** Splits at the first '@'. */
  function Cut(id: string): Option<(string, string)> {
    if id == "" then None
    else if id[0] == '@' then Some(("", id[1..]))
    else match Cut(id[1..])
         case None => None
         case Some((before, after)) => Some(([id[0]] + before, after))
  }

  function Rebuilt(dataset: string, name: string): string {
    dataset + "@" + name
  }

  /**
   What is sent to the middleware is the id that was validated, byte for byte; an id without '@' never gets that
   far.
   */
  lemma {:induction false} CutThenRebuild(id: string)
    ensures Cut(id).None? <==> '@' !in id
    ensures Cut(id).Some? ==> Rebuilt(Cut(id).value.0, Cut(id).value.1) == id && '@' !in Cut(id).value.0
  {
    if id != "" && id[0] != '@' {
      CutThenRebuild(id[1..]);
      assert id == [id[0]] + id[1..];
      if Cut(id).Some? {
        var before, after := Cut(id[1..]).value.0, Cut(id[1..]).value.1;
        assert Rebuilt([id[0]] + before, after) == [id[0]] + Rebuilt(before, after);
      }
    }
  }
}
