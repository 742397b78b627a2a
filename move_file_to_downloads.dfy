/** ClipboardPortal/MoveFileToDownloads.swift: move a received file into the
    Downloads directory under a name that does not exist yet. */
module MoveFileToDownloads {

  import opened Strings

  /** The destination tried at `counter`: the preferred name itself first,
      then "<stem>-<counter>.<ext>" in `retryDir`, always built from the
      original destination. `retryDir`, `stem` and `ext` are Foundation's
      `deletingLastPathComponent()`, `deletingPathExtension().lastPathComponent`
      and `pathExtension` of it: for a plain file name `retryDir` is the
      Downloads directory, for "sub/a.txt" it is Downloads/sub, and for an
      empty name (the destination is Downloads itself) it is Downloads'
      parent. */
  function Candidate(downloads: string, preferred: string, retryDir: string, stem: string, ext: string, counter: nat): string
    requires counter >= 1
  {
    if counter == 1 then downloads + "/" + preferred
    else retryDir + "/" + stem + "-" + NatToDecimal(counter) + "." + ext
  }

  /** Retries with different counters are different names, each of the form
      "<stem>-<counter>.<ext>" with a '.' even for an empty extension. */
  lemma RetryNames(downloads: string, preferred: string, retryDir: string, stem: string, ext: string, k1: nat, k2: nat)
    requires k1 >= 2 && k2 >= 2
    ensures Candidate(downloads, preferred, retryDir, stem, ext, k1) ==
            retryDir + "/" + stem + "-" + NatToDecimal(k1) + "." + ext
    ensures ext == "" ==> Candidate(downloads, preferred, retryDir, stem, ext, k1)[|Candidate(downloads, preferred, retryDir, stem, ext, k1)| - 1] == '.'
    ensures k1 != k2 ==> Candidate(downloads, preferred, retryDir, stem, ext, k1) != Candidate(downloads, preferred, retryDir, stem, ext, k2)
  {
    if k1 != k2 {
      var prefix := retryDir + "/" + stem + "-";
      var c1, c2 := Candidate(downloads, preferred, retryDir, stem, ext, k1), Candidate(downloads, preferred, retryDir, stem, ext, k2);
      var d1, d2 := NatToDecimal(k1), NatToDecimal(k2);
      assert c1 == prefix + (d1 + "." + ext);
      assert c2 == prefix + (d2 + "." + ext);
      if c1 == c2 {
        assert c1[|prefix|..] == d1 + "." + ext;
        assert c2[|prefix|..] == d2 + "." + ext;
        assert |d1| == |d2|;
        assert (d1 + "." + ext)[..|d1|] == d1;
        assert (d2 + "." + ext)[..|d2|] == d2;
        NatToDecimalInjective(k1, k2);
      }
    }
  }

  /** An upper bound on the lengths of the existing paths. */
  ghost function MaxLength(paths: set<string>): (m: nat)
    ensures forall p :: p in paths ==> |p| <= m
  {
    if paths == {} then 0
    else
      var p :| p in paths;
      var rest := MaxLength(paths - {p});
      if |p| > rest then |p| else rest
  }

  /** A counter with more digits than any existing path is long yields a
      free name, so the search always ends. */
  lemma LongCounterIsFree(downloads: string, preferred: string, retryDir: string, stem: string, ext: string,
                          existing: set<string>, counter: nat)
    requires counter >= 1
    requires Candidate(downloads, preferred, retryDir, stem, ext, counter) in existing
    ensures counter < Pow10(MaxLength(existing))
  {
    var m := MaxLength(existing);
    var c := Candidate(downloads, preferred, retryDir, stem, ext, counter);
    assert |c| <= m;
    if counter == 1 {
      assert |c| >= 1;
      Pow10Monotone(1, m);
    } else {
      var d := NatToDecimal(counter);
      assert |d| <= |c|;
      NatToDecimalFacts(counter);
      Pow10Monotone(|d|, m);
    }
  }

  /** `moveFileToDownloadsFolder`: `existing` are the paths that exist and
      `moveFails` whether `moveItem` throws. Returns the chosen destination
      and the URL the function returns. */
  method MoveFileToDownloadsFolder(fileUrl: string, downloads: string, preferred: string, retryDir: string, stem: string, ext: string,
                                   existing: set<string>, moveFails: bool)
    returns (destination: string, result: string)
    ensures destination !in existing
    ensures exists k :: k >= 1 && destination == Candidate(downloads, preferred, retryDir, stem, ext, k) &&
                        forall j :: 1 <= j < k ==> Candidate(downloads, preferred, retryDir, stem, ext, j) in existing
    ensures result == if moveFails then fileUrl else destination
  {
    var counter := 1;
    var unique := Candidate(downloads, preferred, retryDir, stem, ext, 1);
    while unique in existing
      invariant counter >= 1
      invariant unique == Candidate(downloads, preferred, retryDir, stem, ext, counter)
      invariant forall j :: 1 <= j < counter ==> Candidate(downloads, preferred, retryDir, stem, ext, j) in existing
      decreases Pow10(MaxLength(existing)) - counter
    {
      LongCounterIsFree(downloads, preferred, retryDir, stem, ext, existing, counter);
      counter := counter + 1;
      unique := Candidate(downloads, preferred, retryDir, stem, ext, counter);
    }
    destination := unique;
    result := if moveFails then fileUrl else unique;
  }
}
