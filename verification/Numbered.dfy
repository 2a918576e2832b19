/** Directories of files numbered from 1: sorted listings, gaps, and what sits at each number. */
module Numbered {
  import opened Base

  /** The numbers 1 to n. */
  function Numbers(n: nat): (s: set<nat>)
    ensures |s| == n && forall i :: i in s <==> 1 <= i <= n
  {
    if n == 0 then {} else Numbers(n - 1) + {n}
  }

  ghost predicate Contiguous<T>(files: map<nat, T>) {
    files.Keys == Numbers(|files|)
  }

  ghost predicate SortedListing<T>(names: seq<nat>, files: map<nat, T>) {
    && (forall i, j :: 0 <= i < j < |names| ==> names[i] < names[j])
    && (forall n :: n in names <==> n in files)
  }

  lemma ListingSize<T>(names: seq<nat>, files: map<nat, T>)
    requires SortedListing(names, files)
    ensures |names| == |files|
  {
    DistinctSize(names, files.Keys);
  }

  /** A sorted listing that skips a number is the listing of no contiguous directory. */
  lemma GapIsFatal<T>(names: seq<nat>, files: map<nat, T>, index: nat)
    requires SortedListing(names, files) && index < |names| && names[index] != index + 1
    requires forall j :: 0 <= j < index ==> names[j] == j + 1
    ensures !Contiguous(files)
  {
    ListingSize(names, files);
    assert index > 0 ==> names[index - 1] < names[index];
    if names[index] <= index {
      assert names[index] == 0 && 0 in files;
    } else {
      assert index + 1 !in files;
    }
  }

  lemma AllNamed<T>(names: seq<nat>, files: map<nat, T>)
    requires SortedListing(names, files) && |names| == |files|
    requires forall j :: 0 <= j < |names| ==> names[j] == j + 1
    ensures Contiguous(files)
  {
    forall n ensures n in files <==> n in Numbers(|files|) {
      if 1 <= n <= |names| {
        assert names[n - 1] in names;
      }
    }
  }

  function FirstRecords<T>(files: map<nat, T>, n: nat): seq<T>
    requires forall i :: 1 <= i <= n ==> i in files
  {
    seq(n, i requires 0 <= i < n => files[i + 1])
  }

  /** The files of a contiguous directory in order. */
  ghost function View<T>(files: map<nat, T>): seq<T>
    requires Contiguous(files)
  {
    FirstRecords(files, |files|)
  }

  lemma ViewSize<T>(files: map<nat, T>)
    requires Contiguous(files)
    ensures |View(files)| == |files| && files.Keys == Numbers(|files|)
  {
  }

  lemma ViewAt<T>(files: map<nat, T>, n: nat)
    requires Contiguous(files) && n in files
    ensures 1 <= n <= |View(files)| && View(files)[n - 1] == files[n]
  {
  }

  lemma NumbersNext(n: nat)
    ensures Numbers(n + 1) == Numbers(n) + {n + 1}
  {
  }

  lemma OneMoreKey<T>(files: map<nat, T>, number: nat, file: T)
    requires number !in files
    ensures files[number := file].Keys == files.Keys + {number} && |files[number := file]| == |files| + 1
  {
    var files' := files[number := file];
    assert files'.Keys == files.Keys + {number};
    assert |files'| == |files'.Keys| && |files| == |files.Keys|;
  }

  lemma NextContiguous<T>(files: map<nat, T>, number: nat, file: T)
    requires Contiguous(files) && 1 <= number <= |files| + 1 && number !in files
    ensures number == |files| + 1
    ensures Contiguous(files[number := file]) && |files[number := file]| == number
  {
    hide Numbers;
    assert number !in Numbers(|files|);
    OneMoreKey(files, number, file);
    NumbersNext(|files|);
  }

  /** Creating the next file extends the view and leaves no gap. */
  lemma NextNumber<T>(files: map<nat, T>, number: nat, file: T)
    requires Contiguous(files) && 1 <= number <= |files| + 1 && number !in files
    ensures number == |files| + 1
    ensures var files' := files[number := file];
      Contiguous(files') && |files'| == number && View(files') == View(files) + [file]
  {
    var files' := files[number := file];
    NextContiguous(files, number, file);
    ViewSize(files);
    ViewSize(files');
    hide Contiguous;
    assert forall i :: 0 <= i < |files| ==> View(files')[i] == View(files)[i];
  }
}
