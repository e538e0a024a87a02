/** Link collection (scraper.py, lines 98-105). The browser's locator yields
    `total` anchor elements; reading the `href` attribute of the i-th one
    gives `hrefs[i]`, which may be absent (`None`) or empty. The loop visits
    the first `min(total, MAX_VIDEO_PER_KEYWORD)` elements and appends every
    truthy href that is not already collected. */
module Links {
  import opened Wrappers

  /** Python truthiness of an attribute value: present and non-empty. */
  predicate Usable(h: Option<string>) {
    h.Some? && h.value != ""
  }

  /** Number of elements the loop visits: `range(min(total, cap))`, which is
      empty when the cap is zero or negative. */
  function ScanWindow(total: nat, cap: int): (w: nat)
    ensures w <= total
    ensures cap <= 0 ==> w == 0
    ensures 0 < cap ==> w == (if cap < total then cap else total)
  {
    if cap <= 0 then 0 else if cap < total then cap else total
  }

  /** One loop iteration: `if href and href not in urls: urls.append(href)`. */
  function Admit(urls: seq<string>, h: Option<string>): seq<string> {
    if Usable(h) && h.value !in urls then urls + [h.value] else urls
  }

  predicate NoDuplicates(s: seq<string>) {
    forall i, j :: 0 <= i < j < |s| ==> s[i] != s[j]
  }

  /** The list the loop holds after visiting every element of `hrefs`. */
  function Scan(hrefs: seq<Option<string>>): (urls: seq<string>)
    ensures |urls| <= |hrefs|
    ensures NoDuplicates(urls)
    ensures forall u :: u in urls <==> u != "" && Some(u) in hrefs
  {
    if hrefs == [] then []
    else
      var prev := hrefs[..|hrefs| - 1];
      var h := hrefs[|hrefs| - 1];
      assert hrefs == prev + [h];
      Admit(Scan(prev), h)
  }

  /** The collected URL list for one keyword. */
  function CollectLinks(hrefs: seq<Option<string>>, cap: int): (urls: seq<string>)
    ensures |urls| <= ScanWindow(|hrefs|, cap)
    ensures cap <= 0 ==> urls == []
    ensures 0 < cap ==> |urls| <= cap
    ensures NoDuplicates(urls)
    ensures forall u :: u in urls <==>
      u != "" && Some(u) in hrefs[..ScanWindow(|hrefs|, cap)]
  {
    Scan(hrefs[..ScanWindow(|hrefs|, cap)])
  }

  /** Position of the first occurrence of `x` in `s`. */
  function FirstIndex<T(==)>(s: seq<T>, x: T): (k: nat)
    requires x in s
    ensures k < |s| && s[k] == x && x !in s[..k]
  {
    if s[0] == x then 0
    else
      assert x in s[1..] by { var j :| 0 <= j < |s| && s[j] == x; assert s[1..][j - 1] == x; }
      var k := 1 + FirstIndex(s[1..], x);
      assert s[..k] == [s[0]] + s[1..][..k - 1];
      k
  }

  /** Independent description of the collected list: it holds exactly the
      usable values of `hrefs`, listed by increasing first occurrence. */
  ghost predicate IsFirstOccurrenceList(hrefs: seq<Option<string>>, urls: seq<string>) {
    && (forall u :: u in urls <==> u != "" && Some(u) in hrefs)
    && forall i, j :: 0 <= i < j < |urls| ==>
         Some(urls[i]) in hrefs && Some(urls[j]) in hrefs &&
         FirstIndex(hrefs, Some(urls[i])) < FirstIndex(hrefs, Some(urls[j]))
  }

  /** The first occurrence of a value in a prefix is its first occurrence
      in the whole sequence. */
  lemma {:induction false} FirstIndexPrefix<T>(s: seq<T>, n: nat, x: T)
    requires n <= |s|
    requires x in s[..n]
    ensures x in s
    ensures FirstIndex(s[..n], x) == FirstIndex(s, x)
  {
    assert s[..n][0] == s[0];
    if s[0] != x {
      assert s[..n][1..] == s[1..][..n - 1];
      FirstIndexPrefix(s[1..], n - 1, x);
    }
  }

  lemma {:induction false} ScanOrder(hrefs: seq<Option<string>>)
    ensures IsFirstOccurrenceList(hrefs, Scan(hrefs))
  {
    if hrefs != [] {
      var n := |hrefs| - 1;
      var prev := hrefs[..n];
      var h := hrefs[n];
      assert hrefs == prev + [h];
      ScanOrder(prev);
      var before := Scan(prev);
      var urls := Scan(hrefs);
      assert urls == Admit(before, h);
      forall i, j | 0 <= i < j < |urls|
        ensures Some(urls[i]) in hrefs && Some(urls[j]) in hrefs
        ensures FirstIndex(hrefs, Some(urls[i])) < FirstIndex(hrefs, Some(urls[j]))
      {
        assert urls[i] in before;
        assert Some(urls[i]) in prev;
        FirstIndexPrefix(hrefs, n, Some(urls[i]));
        if j < |before| {
          assert Some(urls[j]) in prev;
          FirstIndexPrefix(hrefs, n, Some(urls[j]));
        } else {
          assert urls[j] == h.value && h.value !in before;
          assert Some(urls[j]) !in prev;
          assert FirstIndex(hrefs, Some(urls[j])) == n;
        }
      }
    }
  }

  /** At most one list meets the first-occurrence description. */
  lemma {:induction false} FirstOccurrenceListUnique(hrefs: seq<Option<string>>, a: seq<string>, b: seq<string>)
    requires IsFirstOccurrenceList(hrefs, a)
    requires IsFirstOccurrenceList(hrefs, b)
    ensures a == b
    decreases |a|
  {
    if a == [] || b == [] {
      EmptyTogether(hrefs, a, b);
    } else {
      var x := a[|a| - 1];
      LastEntriesAgree(hrefs, a, b);
      var fx := FirstIndex(hrefs, Some(x));
      var a' := a[..|a| - 1];
      var b' := b[..|b| - 1];
      FirstOccurrencePrefix(hrefs, a, fx);
      FirstOccurrencePrefix(hrefs, b, fx);
      FirstOccurrenceListUnique(hrefs[..fx], a', b');
      assert a == a' + [x];
      assert b == b' + [x];
    }
  }

  lemma EmptyTogether(hrefs: seq<Option<string>>, a: seq<string>, b: seq<string>)
    requires IsFirstOccurrenceList(hrefs, a)
    requires IsFirstOccurrenceList(hrefs, b)
    ensures a == [] <==> b == []
  {
    if a != [] {
      assert a[0] in a;
    }
    if b != [] {
      assert b[0] in b;
    }
  }

  /** Both lists end with the usable href whose first occurrence is latest. */
  lemma LastEntriesAgree(hrefs: seq<Option<string>>, a: seq<string>, b: seq<string>)
    requires IsFirstOccurrenceList(hrefs, a)
    requires IsFirstOccurrenceList(hrefs, b)
    requires a != [] && b != []
    ensures a[|a| - 1] == b[|b| - 1]
  {
    var x := a[|a| - 1];
    var y := b[|b| - 1];
    assert x in a && y in b;
    var fx := FirstIndex(hrefs, Some(x));
    var fy := FirstIndex(hrefs, Some(y));
    assert fy <= fx by {
      var k :| 0 <= k < |a| && a[k] == y;
    }
    assert fx <= fy by {
      var m :| 0 <= m < |b| && b[m] == x;
    }
  }

  /** Dropping the last entry of a first-occurrence list leaves the
      first-occurrence list of the hrefs before that entry's first
      occurrence. */
  lemma FirstOccurrencePrefix(hrefs: seq<Option<string>>, urls: seq<string>, f: nat)
    requires IsFirstOccurrenceList(hrefs, urls)
    requires urls != []
    requires Some(urls[|urls| - 1]) in hrefs
    requires f == FirstIndex(hrefs, Some(urls[|urls| - 1]))
    ensures IsFirstOccurrenceList(hrefs[..f], urls[..|urls| - 1])
  {
    var n := |urls| - 1;
    var x := urls[n];
    var cut := hrefs[..f];
    var rest := urls[..n];
    forall u | u in rest
      ensures u != "" && Some(u) in cut
    {
      var i :| 0 <= i < n && rest[i] == u;
      assert urls[i] == u;
      var fu := FirstIndex(hrefs, Some(u));
      assert fu < f;
      assert cut[fu] == Some(u);
    }
    forall u | u != "" && Some(u) in cut
      ensures u in rest
    {
      var p :| 0 <= p < f && cut[p] == Some(u);
      assert hrefs[p] == Some(u);
      assert u in urls;
      var i :| 0 <= i < |urls| && urls[i] == u;
      assert rest[i] == u;
    }
    forall i, j | 0 <= i < j < |rest|
      ensures Some(rest[i]) in cut && Some(rest[j]) in cut
      ensures FirstIndex(cut, Some(rest[i])) < FirstIndex(cut, Some(rest[j]))
    {
      assert rest[i] == urls[i] && rest[j] == urls[j];
      assert rest[i] in rest && rest[j] in rest;
      FirstIndexPrefix(hrefs, f, Some(rest[i]));
      FirstIndexPrefix(hrefs, f, Some(rest[j]));
    }
  }

  /** The collected list is the only list that holds the usable hrefs of the
      scan window once each, in order of first occurrence. */
  lemma CollectLinksCharacterization(hrefs: seq<Option<string>>, cap: int, urls: seq<string>)
    ensures urls == CollectLinks(hrefs, cap) <==>
      IsFirstOccurrenceList(hrefs[..ScanWindow(|hrefs|, cap)], urls)
  {
    var window := hrefs[..ScanWindow(|hrefs|, cap)];
    ScanOrder(window);
    if IsFirstOccurrenceList(window, urls) {
      FirstOccurrenceListUnique(window, urls, Scan(window));
    }
  }

  /** Every visited slot adds an entry exactly when every visited href is
      usable and new; a duplicate or an empty href costs a slot of the
      window. */
  predicate AllFresh(hrefs: seq<Option<string>>) {
    forall i :: 0 <= i < |hrefs| ==> Usable(hrefs[i]) && hrefs[i] !in hrefs[..i]
  }

  lemma {:induction false} ScanFillsWindow(hrefs: seq<Option<string>>)
    ensures |Scan(hrefs)| == |hrefs| <==> AllFresh(hrefs)
  {
    if hrefs != [] {
      var n := |hrefs| - 1;
      var prev := hrefs[..n];
      var h := hrefs[n];
      assert hrefs == prev + [h];
      ScanFillsWindow(prev);
      var before := Scan(prev);
      assert Usable(h) ==> (h.value in before <==> h in prev);
      assert AllFresh(hrefs) <==> AllFresh(prev) && Usable(h) && h !in prev by {
        assert hrefs[..n] == prev;
        forall i | 0 <= i < n
          ensures hrefs[..i] == prev[..i]
        {
        }
      }
    }
  }

  /** Duplicates consume slots: with a cap of 2 the second copy of
      "/video/1" uses up the window and "/video/2" is never reached. */
  lemma DuplicateConsumesSlot()
    ensures CollectLinks([Some("/video/1"), Some("/video/1"), Some("/video/2")], 2) == ["/video/1"]
  {
  }

  /** The loop of lines 101-105. Besides the list it returns the indices of
      the elements whose `href` attribute it read, in reading order. */
  method CollectLinksLoop(hrefs: seq<Option<string>>, cap: int) returns (urls: seq<string>, visited: seq<nat>)
    ensures urls == CollectLinks(hrefs, cap)
    ensures |visited| == ScanWindow(|hrefs|, cap)
    ensures forall k :: 0 <= k < |visited| ==> visited[k] == k
  {
    var total := |hrefs|;
    var bound := ScanWindow(total, cap);
    urls := [];
    visited := [];
    var i := 0;
    while i < bound
      invariant 0 <= i <= bound
      invariant urls == Scan(hrefs[..i])
      invariant |visited| == i
      invariant forall k :: 0 <= k < i ==> visited[k] == k
    {
      var href := hrefs[i];
      visited := visited + [i];
      if Usable(href) && href.value !in urls {
        urls := urls + [href.value];
      }
      assert hrefs[..i + 1][..i] == hrefs[..i];
      i := i + 1;
    }
  }
}
