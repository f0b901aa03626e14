/** The first step of the import wizard (import.py): the files the user
    picked are split into the `.ovpn` profiles and the other files (keys,
    certificates, password files), keeping the order in which they were
    picked. An import without any profile is refused. */
module ImportPartition {
  import opened Strings

  predicate IsOvpn(name: string) {
    EndsWith(name, ".ovpn")
  }

  datatype Partition = Partition(ovpn: seq<string>, other: seq<string>)

  /** The files picked so far, split by kind. */
  function PartitionOf(files: seq<string>): Partition
    decreases |files|
  {
    if files == [] then Partition([], [])
    else
      var prev := PartitionOf(files[..|files| - 1]);
      var name := files[|files| - 1];
      if IsOvpn(name) then prev.(ovpn := prev.ovpn + [name]) else prev.(other := prev.other + [name])
  }

  datatype Outcome = Refused(message: string) | Accepted(files: Partition)

  /** The loop over the picked files, and the check that follows it. */
  method SplitFiles(files: seq<string>) returns (r: Outcome)
    ensures PartitionOf(files).ovpn == [] ==>
      r == Refused("No .ovpn files found.  You must provide at least one .ovpn file.")
    ensures PartitionOf(files).ovpn != [] ==> r == Accepted(PartitionOf(files))
  {
    var ovpn, other := [], [];
    var i := 0;
    while i < |files|
      invariant 0 <= i <= |files|
      invariant PartitionOf(files[..i]) == Partition(ovpn, other)
    {
      assert files[..i + 1][..i] == files[..i];
      if EndsWith(files[i], ".ovpn") {
        ovpn := ovpn + [files[i]];
      } else {
        other := other + [files[i]];
      }
      i := i + 1;
    }
    assert files[..i] == files;
    if |ovpn| == 0 {
      return Refused("No .ovpn files found.  You must provide at least one .ovpn file.");
    }
    r := Accepted(Partition(ovpn, other));
  }

  /** Every picked file lands in exactly one list: the profiles are the
      files ending ".ovpn", the others the rest, and nothing is lost. */
  lemma {:induction false} PartitionMembers(files: seq<string>)
    ensures var p := PartitionOf(files);
      |p.ovpn| + |p.other| == |files| &&
      (forall x :: x in p.ovpn <==> x in files && IsOvpn(x)) &&
      (forall x :: x in p.other <==> x in files && !IsOvpn(x))
    decreases |files|
  {
    if files != [] {
      var init := files[..|files| - 1];
      PartitionMembers(init);
      assert files == init + [files[|files| - 1]];
    }
  }

  /** Both lists keep the order in which the files were picked: each is the
      picked sequence with the files of the other kind removed. */
  lemma {:induction false} PartitionOrder(files: seq<string>)
    ensures PartitionOf(files).ovpn == Keep(files, true)
    ensures PartitionOf(files).other == Keep(files, false)
    decreases |files|
  {
    if files != [] {
      var init := files[..|files| - 1];
      PartitionOrder(init);
      KeepSnoc(init, files[|files| - 1], true);
      KeepSnoc(init, files[|files| - 1], false);
      assert init + [files[|files| - 1]] == files;
    }
  }

  /** The picked files of one kind, in order. */
  function Keep(files: seq<string>, ovpn: bool): (r: seq<string>)
    ensures |r| <= |files|
    decreases |files|
  {
    if files == [] then []
    else (if IsOvpn(files[0]) == ovpn then [files[0]] else []) + Keep(files[1..], ovpn)
  }

  lemma {:induction false} KeepSnoc(files: seq<string>, name: string, ovpn: bool)
    ensures Keep(files + [name], ovpn) == Keep(files, ovpn) + (if IsOvpn(name) == ovpn then [name] else [])
    decreases |files|
  {
    if files == [] {
      assert [] + [name] == [name];
    } else {
      var head := if IsOvpn(files[0]) == ovpn then [files[0]] else [];
      var tail := if IsOvpn(name) == ovpn then [name] else [];
      assert (files + [name])[0] == files[0];
      assert (files + [name])[1..] == files[1..] + [name];
      KeepSnoc(files[1..], name, ovpn);
      assert head + (Keep(files[1..], ovpn) + tail) == (head + Keep(files[1..], ovpn)) + tail;
    }
  }
}
