/** `DatasetFromDiskSource` in internal/truenas/truenas.go and the loops that map a VM's disks to zvol datasets. */
module Datasets {
  import opened Basics

  const ZVOL_PREFIX := "/dev/zvol/"

  /** "/dev/zvol/pool/vms/x" names the dataset "pool/vms/x"; anything else is not a zvol. */
  function DatasetFromDiskSource(source: string): Option<string> {
    if ZVOL_PREFIX < source then Some(source[|ZVOL_PREFIX|..]) else None
  }

  /** A disk is a zvol if and only if its source is the prefix and a dataset name, which may not be empty. */
  lemma ZvolPaths(source: string, ds: string)
    ensures DatasetFromDiskSource(source) == Some(ds) <==> ds != "" && source == "/dev/zvol/" + ds
  {
    if ZVOL_PREFIX < source { assert source == ZVOL_PREFIX + source[|ZVOL_PREFIX|..]; }
    assert ("/dev/zvol/" + ds)[|ZVOL_PREFIX|..] == ds;
  }

  /** The zvol datasets of the disks, in disk order. */
  function Zvols(disks: seq<string>): seq<string> {
    if disks == [] then []
    else
      var rest := Zvols(disks[..|disks| - 1]);
      match DatasetFromDiskSource(disks[|disks| - 1])
      case Some(ds) => rest + [ds]
      case None => rest
  }

  /** Every dataset listed is the tail of a disk's zvol path, and the disks are met in order. */
  lemma {:induction false} ZvolsAreDisks(disks: seq<string>, k: nat)
    requires k < |Zvols(disks)|
    ensures exists i :: 0 <= i < |disks| && disks[i] == ZVOL_PREFIX + Zvols(disks)[k]
    ensures Zvols(disks)[k] != ""
    decreases |disks|
  {
    var front := disks[..|disks| - 1];
    if k < |Zvols(front)| {
      ZvolsAreDisks(front, k);
      var i :| 0 <= i < |front| && front[i] == ZVOL_PREFIX + Zvols(front)[k];
      assert disks[i] == ZVOL_PREFIX + Zvols(disks)[k];
    } else {
      var source := disks[|disks| - 1];
      assert source == ZVOL_PREFIX + source[|ZVOL_PREFIX|..];
    }
  }

  /**
   No zvol disk is missed and the order is theirs: each disk's dataset is listed right after those of the disks before
   it.
   */
  lemma {:induction false} ZvolsInDiskOrder(disks: seq<string>, i: nat)
    requires i < |disks| && DatasetFromDiskSource(disks[i]).Some?
    ensures |Zvols(disks[..i])| < |Zvols(disks)|
    ensures Zvols(disks)[|Zvols(disks[..i])|] == DatasetFromDiskSource(disks[i]).value
    ensures Zvols(disks[..i]) == Zvols(disks)[..|Zvols(disks[..i])|]
    decreases |disks|
  {
    var front := disks[..|disks| - 1];
    if i == |front| {
      assert disks[..i] == front;
    } else {
      assert front[..i] == disks[..i];
      ZvolsInDiskOrder(front, i);
    }
  }

  method TruenasDatasets(disks: seq<string>) returns (out: seq<string>)
    ensures out == Zvols(disks)
  {
    out := [];
    for i := 0 to |disks|
      invariant out == Zvols(disks[..i])
    {
      assert disks[..i + 1][..i] == disks[..i];
      var ds := DatasetFromDiskSource(disks[i]);
      if ds.Some? { out := out + [ds.value]; }
    }
    assert disks[..|disks|] == disks;
  }
}
