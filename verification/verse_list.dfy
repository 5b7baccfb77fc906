/**
 * The verse list of one surah: filtering the loaded verses by an ayat range,
 * ten verses per page with clamped previous/next navigation, the recitation
 * audio file chosen for a verse, and the tafsir shown for it
 * (app/components/VerseList.tsx).
 */
module VerseList {
  import opened Wrappers
  import opened Text

  const VersesPerPage := 10
  const AudioBase := "https://everyayah.com/data/Alafasy_64kbps/"
  const NoTafsir := "Tafsir tidak tersedia."

  datatype Verse = Verse(ayat: nat, arabic: string, translation: string)

  datatype TafsirEntry = TafsirEntry(ayat: int, text: string)

  /** What reading `/data/verse.json` gave for the surah: a failure, no entry, or its verses. */
  datatype VerseSource = FetchFailed | SurahMissing | SurahFound(ayat: seq<Verse>)

  function Min(a: int, b: int): int { if a < b then a else b }

  function Max(a: int, b: int): int { if a < b then b else a }

  // ---------------------------------------------------------------- range filter

  /** An optional range bound counts only when it is present and non-zero, as in `startAyat && endAyat`. */
  predicate Truthy(bound: Option<int>) { bound.Some? && bound.value != 0 }

  /** The verses whose ayat number lies in `[lo, hi]`, in their original order. */
  function Between(verses: seq<Verse>, lo: int, hi: int): (r: seq<Verse>)
    ensures |r| <= |verses|
    ensures forall v :: v in r <==> v in verses && lo <= v.ayat <= hi
  {
    if verses == [] then []
    else (if lo <= verses[0].ayat <= hi then [verses[0]] else []) + Between(verses[1..], lo, hi)
  }

  /** Filtering commutes with concatenation, so it keeps the original order. */
  lemma {:induction false} BetweenAppend(a: seq<Verse>, b: seq<Verse>, lo: int, hi: int)
    ensures Between(a + b, lo, hi) == Between(a, lo, hi) + Between(b, lo, hi)
  {
    if a == [] {
      assert a + b == b;
    } else {
      assert (a + b)[1..] == a[1..] + b;
      BetweenAppend(a[1..], b, lo, hi);
    }
  }

  /** A list already inside the range is left as it is. */
  lemma {:induction false} BetweenKeepsInRange(verses: seq<Verse>, lo: int, hi: int)
    requires forall i :: 0 <= i < |verses| ==> lo <= verses[i].ayat <= hi
    ensures Between(verses, lo, hi) == verses
  {
    if verses != [] {
      var rest := verses[1..];
      forall i | 0 <= i < |rest| ensures lo <= rest[i].ayat <= hi {
        assert rest[i] == verses[i + 1];
      }
      BetweenKeepsInRange(rest, lo, hi);
      assert lo <= verses[0].ayat <= hi;
      assert Between(verses, lo, hi) == [verses[0]] + rest;
    }
  }

  /** The list the page shows after loading: filtered only when both bounds are truthy. */
  function RangeFilter(verses: seq<Verse>, startAyat: Option<int>, endAyat: Option<int>): (r: seq<Verse>)
    ensures Truthy(startAyat) && Truthy(endAyat) ==>
      forall v :: v in r <==> v in verses && startAyat.value <= v.ayat <= endAyat.value
    ensures !(Truthy(startAyat) && Truthy(endAyat)) ==> r == verses
  {
    if Truthy(startAyat) && Truthy(endAyat) then Between(verses, startAyat.value, endAyat.value) else verses
  }

  // ---------------------------------------------------------------- pagination

  /** `Math.ceil(n / 10)` as the source computes it: zero for an empty list. */
  function PageCountAsWritten(n: nat): (r: nat)
    ensures n <= r * 10
    ensures r > 0 ==> (r - 1) * 10 < n
    ensures r == 0 <==> n == 0
  {
    (n + 9) / 10
  }

  /** The page count with the empty list given one (empty) page, as a missing surah already is. */
  function TotalPages(n: nat): (r: nat)
    ensures r >= 1
    ensures n > 0 ==> r == PageCountAsWritten(n)
  {
    if n == 0 then 1 else PageCountAsWritten(n)
  }

  /** Where `Array.prototype.slice` puts a start or end argument on a list of length `len`. */
  function SliceIndex(i: int, len: nat): (r: nat)
    ensures r <= len
    ensures 0 <= i ==> r == Min(i, len)
  {
    if i < 0 then Max(len + i, 0) else Min(i, len)
  }

  /** `s.slice(start, end)`, negative arguments counting from the end. */
  function Slice<T>(s: seq<T>, start: int, end: int): seq<T> {
    var from, to := SliceIndex(start, |s|), SliceIndex(end, |s|);
    if from < to then s[from..to] else []
  }

  /** `displayedVerses`: the ten-verse window of page `page`. */
  function PageVerses<T>(verses: seq<T>, page: int): (r: seq<T>)
    ensures |r| <= VersesPerPage
    ensures verses == [] ==> r == []
    ensures page >= 1 ==>
      r == verses[Min((page - 1) * 10, |verses|)..Min(page * 10, |verses|)]
  {
    if |verses| == 0 then [] else Slice(verses, (page - 1) * 10, (page - 1) * 10 + 10)
  }

  /** Pages 1 to k, one after another. */
  function PagesUpTo<T>(verses: seq<T>, k: nat): seq<T> {
    if k == 0 then [] else PagesUpTo(verses, k - 1) + PageVerses(verses, k)
  }

  lemma {:induction false} PagesUpToPrefix<T>(verses: seq<T>, k: nat)
    ensures PagesUpTo(verses, k) == verses[..Min(k * 10, |verses|)]
  {
    if k > 0 {
      PagesUpToPrefix(verses, k - 1);
      var a, b := Min((k - 1) * 10, |verses|), Min(k * 10, |verses|);
      assert verses[..a] + verses[a..b] == verses[..b];
    }
  }

  /** Reading every page from 1 to the last one gives back the whole list, exactly once. */
  lemma PagesCoverList<T>(verses: seq<T>)
    ensures PagesUpTo(verses, TotalPages(|verses|)) == verses
    ensures PagesUpTo(verses, PageCountAsWritten(|verses|)) == verses
  {
    PagesUpToPrefix(verses, TotalPages(|verses|));
    PagesUpToPrefix(verses, PageCountAsWritten(|verses|));
    assert verses[..|verses|] == verses;
  }

  /** Every page from 1 to the last holds at least one verse when there are verses; later pages hold none. */
  lemma PagesInRangeNonEmpty<T>(verses: seq<T>, page: int)
    requires page >= 1
    ensures verses != [] && page <= TotalPages(|verses|) ==> PageVerses(verses, page) != []
    ensures page > TotalPages(|verses|) ==> PageVerses(verses, page) == []
  {
  }

  /** The "Sebelumnya" button: one page back, never below page 1. */
  function PreviousPage(page: int): int { Max(1, page - 1) }

  /** The "Berikutnya" button: one page on, never beyond `total`. */
  function NextPage(page: int, total: int): int { Min(total, page + 1) }

  /** With at least one page, both buttons keep the page within `[1, total]`, and each undoes the other. */
  lemma NavigationStaysInRange(page: int, total: int)
    requires 1 <= page <= total
    ensures 1 <= PreviousPage(page) <= total && 1 <= NextPage(page, total) <= total
    ensures page < total ==> PreviousPage(NextPage(page, total)) == page
    ensures page > 1 ==> NextPage(PreviousPage(page), total) == page
  {
  }

  /**
   * As written, a range that matches no verse leaves zero pages: the page
   * shows "1 of 0", Next is enabled (1 != 0) and moves to page 0.
   */
  lemma EmptyRangeAsWritten()
    ensures var verses := RangeFilter([Verse(1, "", "")], Some(5), Some(7));
      && verses == []
      && PageCountAsWritten(|verses|) == 0
      && !(1 <= 1 <= PageCountAsWritten(|verses|))
      && NextPage(1, PageCountAsWritten(|verses|)) == 0
  {
  }

  // ---------------------------------------------------------------- audio file names

  /** The pad helper inside `handlePlay`: prepend "0" while the text is shorter than `size`. */
  method Pad(num: nat, size: int) returns (s: string)
    ensures s == PadStart(Digits(num), size)
  {
    var digits := Digits(num);
    s := digits;
    ghost var zeros: nat := 0;
    assert s == Zeros(0) + digits;
    while |s| < size
      invariant s == Zeros(zeros) + digits
      invariant zeros == 0 || |s| <= size
      decreases size - |s|
    {
      PrependZero(zeros, digits);
      s := "0" + s;
      zeros := zeros + 1;
    }
    ZerosPadding(digits, zeros, size);
  }

  /** The recitation file of one ayah: three-digit surah, three-digit ayah, ".mp3". */
  function AudioFileName(surah: nat, ayah: nat): string {
    PadStart(Digits(surah), 3) + PadStart(Digits(ayah), 3) + ".mp3"
  }

  function AudioUrl(surah: nat, ayah: nat): string { AudioBase + AudioFileName(surah, ayah) }

  /** For numbers 1..999 the file name is six digits and ".mp3", and both numbers read back from it. */
  lemma AudioFileNameShape(surah: nat, ayah: nat)
    requires 1 <= surah <= 999 && 1 <= ayah <= 999
    ensures var name := AudioFileName(surah, ayah);
      && |name| == 10
      && AllDigits(name[..6])
      && name[6..] == ".mp3"
      && Value(name[..3]) == surah
      && Value(name[3..6]) == ayah
  {
    var s, a := PadStart(Digits(surah), 3), PadStart(Digits(ayah), 3);
    FixedWidth(surah, 3);
    FixedWidth(ayah, 3);
    var name := AudioFileName(surah, ayah);
    assert name[..3] == s && name[3..6] == a && name[6..] == ".mp3";
  }

  /** Distinct verses get distinct recitation files. */
  lemma AudioFileNameInjective(s1: nat, a1: nat, s2: nat, a2: nat)
    requires 1 <= s1 <= 999 && 1 <= a1 <= 999 && 1 <= s2 <= 999 && 1 <= a2 <= 999
    requires AudioFileName(s1, a1) == AudioFileName(s2, a2)
    ensures s1 == s2 && a1 == a2
  {
    AudioFileNameShape(s1, a1);
    AudioFileNameShape(s2, a2);
  }

  /** The recitation URL identifies the verse: different (surah, ayah) pairs fetch different files. */
  lemma AudioUrlInjective(s1: nat, a1: nat, s2: nat, a2: nat)
    requires 1 <= s1 <= 999 && 1 <= a1 <= 999 && 1 <= s2 <= 999 && 1 <= a2 <= 999
    requires AudioUrl(s1, a1) == AudioUrl(s2, a2)
    ensures s1 == s2 && a1 == a2
  {
    assert AudioFileName(s1, a1) == AudioUrl(s1, a1)[|AudioBase|..];
    assert AudioFileName(s2, a2) == AudioUrl(s2, a2)[|AudioBase|..];
    AudioFileNameInjective(s1, a1, s2, a2);
  }

  // ---------------------------------------------------------------- tafsir

  /** The tafsir shown for `ayat`: the first entry for it, or the fixed "not available" text. */
  function TafsirText(list: seq<TafsirEntry>, ayat: int): (text: string)
    ensures (forall j :: 0 <= j < |list| ==> list[j].ayat != ayat) ==> text == NoTafsir
    ensures forall i :: (0 <= i < |list| && list[i].ayat == ayat && (forall j :: 0 <= j < i ==> list[j].ayat != ayat))
                        ==> text == list[i].text
  {
    match FirstIndex(list, (t: TafsirEntry) => t.ayat == ayat)
    case Some(i) => list[i].text
    case None => NoTafsir
  }

  // ---------------------------------------------------------------- playback

  /**
   * `handlePlay`'s effect on the playing verse: pressing the playing verse
   * stops it; pressing another starts it when the audio element exists.
   */
  function PressPlay(playing: Option<nat>, verse: nat, audioElement: bool): Option<nat> {
    if playing == Some(verse) then None
    else if audioElement then Some(verse)
    else playing
  }

  /**
   * The playing verse after the audio element's `ended` event, as written. The
   * listener that clears it is attached by an effect with no dependencies, so
   * it runs once, after the first commit. The `<audio>` element is rendered
   * only when the list is not loading. When the list was loading at that
   * commit, no listener is ever attached, and the verse stays "playing".
   */
  function EndedAsWritten(loadingAtFirstCommit: bool, playing: Option<nat>): Option<nat> {
    if loadingAtFirstCommit then playing else None
  }

  /** The evident intent: a recitation that has ended is no longer playing. */
  function Ended(playing: Option<nat>): Option<nat> {
    None
  }

  /**
   * As written, with the list loading at its first commit (as it always is):
   * after verse `v` plays to its end, it still counts as playing, and pressing
   * it again takes the pause branch, so nothing plays.
   */
  lemma EndedListenerAsWritten(v: nat)
    ensures var afterEnd := EndedAsWritten(true, PressPlay(None, v, true));
      && afterEnd == Some(v)
      && PressPlay(afterEnd, v, true) == None
  {
  }

  /**
   * As intended: once a recitation has ended, nothing is playing, and pressing
   * any verse plays it.
   */
  lemma ReplayAfterEnded(playing: Option<nat>, v: nat, w: nat)
    ensures Ended(PressPlay(playing, v, true)) == None
    ensures PressPlay(Ended(PressPlay(playing, v, true)), w, true) == Some(w)
  {
  }

  // ---------------------------------------------------------------- component state

  /** The state of one mounted verse list. */
  class VerseListView {
    const surahNumber: nat
    var verses: seq<Verse>
    var totalPages: nat
    var currentPage: int
    var loading: bool
    var playingAyah: Option<nat>
    var audioSrc: Option<string>
    var audioPaused: bool
    var tafsirList: seq<TafsirEntry>
    var shownTafsir: Option<(int, string)>

    /** The page count matches the list, and the current page is one of its pages. */
    ghost predicate Valid()
      reads this
    {
      totalPages == TotalPages(|verses|) && 1 <= currentPage <= totalPages
    }

    constructor (surahNumber: nat)
      ensures Valid() && this.surahNumber == surahNumber
      ensures verses == [] && currentPage == 1 && loading
      ensures playingAyah == None && audioSrc == None && audioPaused
      ensures tafsirList == [] && shownTafsir == None
    {
      this.surahNumber := surahNumber;
      verses, totalPages, currentPage, loading := [], 1, 1, true;
      playingAyah, audioSrc, audioPaused := None, None, true;
      tafsirList, shownTafsir := [], None;
    }

    /** The verses on the current page. */
    function Displayed(): (r: seq<Verse>)
      reads this
      requires Valid()
      ensures |r| <= VersesPerPage
      ensures (r == []) <==> (verses == [])
    {
      PagesInRangeNonEmpty(verses, currentPage);
      PageVerses(verses, currentPage)
    }

    /**
     * Loading a surah (or a new range) goes back to page 1 and recomputes the
     * list and its page count. While loading, the `<audio>` element is not
     * rendered: the one that was playing leaves the page, and a fresh one with
     * no source takes its place once loading ends. The playing verse is kept.
     */
    method Load(source: VerseSource, startAyat: Option<int>, endAyat: Option<int>)
      modifies this
      ensures Valid() && currentPage == 1 && !loading
      ensures verses == if source.SurahFound? then RangeFilter(source.ayat, startAyat, endAyat) else []
      ensures playingAyah == old(playingAyah) && audioSrc == None && audioPaused
      ensures tafsirList == old(tafsirList) && shownTafsir == old(shownTafsir)
    {
      currentPage := 1;
      loading := true;
      audioSrc, audioPaused := None, true;
      match source {
        case FetchFailed =>
          verses, totalPages := [], 1;
        case SurahMissing =>
          verses, totalPages := [], 1;
        case SurahFound(ayat) =>
          verses := RangeFilter(ayat, startAyat, endAyat);
          totalPages := TotalPages(|verses|);
      }
      loading := false;
    }

    /** The tafsir list is cleared, then filled from the fetch unless the surah number is zero or the fetch failed. */
    method LoadTafsir(fetched: Option<seq<TafsirEntry>>)
      requires Valid()
      modifies this`tafsirList
      ensures Valid()
      ensures tafsirList == if surahNumber != 0 && fetched.Some? then fetched.value else []
    {
      tafsirList := [];
      if surahNumber == 0 {
        return;
      }
      if fetched.Some? {
        tafsirList := fetched.value;
      }
    }

    /**
     * "Sebelumnya". A new page fetches the list again, so, as in `Load`, the
     * audio element is replaced by a fresh one with no source. Setting the
     * page it is already on re-renders nothing and keeps the element.
     */
    method Previous()
      requires Valid()
      modifies this`currentPage, this`audioSrc, this`audioPaused
      ensures Valid() && currentPage == PreviousPage(old(currentPage))
      ensures currentPage != old(currentPage) ==> audioSrc == None && audioPaused
      ensures currentPage == old(currentPage) ==> audioSrc == old(audioSrc) && audioPaused == old(audioPaused)
    {
      var page := Max(1, currentPage - 1);
      if page != currentPage {
        currentPage := page;
        audioSrc, audioPaused := None, true;
      }
    }

    /** "Berikutnya", with the same reload of the audio element when the page changes. */
    method Next()
      requires Valid()
      modifies this`currentPage, this`audioSrc, this`audioPaused
      ensures Valid() && currentPage == NextPage(old(currentPage), totalPages)
      ensures currentPage != old(currentPage) ==> audioSrc == None && audioPaused
      ensures currentPage == old(currentPage) ==> audioSrc == old(audioSrc) && audioPaused == old(audioPaused)
    {
      var page := Min(totalPages, currentPage + 1);
      if page != currentPage {
        currentPage := page;
        audioSrc, audioPaused := None, true;
      }
    }

    /** "Sebelumnya" is disabled exactly when pressing it would not change the page. */
    predicate PreviousDisabled()
      reads this
      requires Valid()
      ensures PreviousDisabled() <==> PreviousPage(currentPage) == currentPage
    {
      currentPage == 1
    }

    /** "Berikutnya" is disabled exactly when pressing it would not change the page. */
    predicate NextDisabled()
      reads this
      requires Valid()
      ensures NextDisabled() <==> NextPage(currentPage, totalPages) == currentPage
    {
      currentPage == totalPages
    }

    /**
     * `handlePlay`: pressing the playing verse pauses it; pressing another verse
     * points the audio element at its recitation and plays it, when the element exists.
     */
    method Play(verseNumber: nat, audioElement: bool)
      requires Valid()
      modifies this`playingAyah, this`audioSrc, this`audioPaused
      ensures Valid()
      ensures old(playingAyah) == Some(verseNumber) ==>
        playingAyah == None && audioSrc == old(audioSrc) && audioPaused == (audioElement || old(audioPaused))
      ensures old(playingAyah) != Some(verseNumber) && audioElement ==>
        playingAyah == Some(verseNumber) && audioSrc == Some(AudioUrl(surahNumber, verseNumber)) && !audioPaused
      ensures old(playingAyah) != Some(verseNumber) && !audioElement ==>
        playingAyah == old(playingAyah) && audioSrc == old(audioSrc) && audioPaused == old(audioPaused)
      ensures playingAyah == PressPlay(old(playingAyah), verseNumber, audioElement)
    {
      if playingAyah == Some(verseNumber) {
        if audioElement {
          audioPaused := true;
        }
        playingAyah := None;
      } else {
        var surahStr := Pad(surahNumber, 3);
        var ayahStr := Pad(verseNumber, 3);
        var url := AudioBase + surahStr + ayahStr + ".mp3";
        assert url == AudioUrl(surahNumber, verseNumber);
        if audioElement {
          audioSrc := Some(url);
          audioPaused := false;
          playingAyah := Some(verseNumber);
        }
      }
    }

    /**
     * The audio element's `ended` event. The element pauses itself, but no
     * listener is attached to it (the list is loading at its first commit, see
     * `EndedAsWritten`), so the playing verse is kept.
     */
    method AudioEnded()
      requires Valid()
      modifies this`audioPaused
      ensures Valid() && audioPaused
      ensures playingAyah == EndedAsWritten(true, old(playingAyah))
    {
      audioPaused := true;
    }

    /** The tafsir button of a verse opens the pop-up with that verse's tafsir. */
    method ShowTafsir(ayat: int)
      requires Valid()
      modifies this`shownTafsir
      ensures Valid() && shownTafsir == Some((ayat, TafsirText(tafsirList, ayat)))
    {
      var found := Find(tafsirList, (t: TafsirEntry) => t.ayat == ayat);
      var text := if found.Some? then found.value.text else NoTafsir;
      shownTafsir := Some((ayat, text));
    }

    method CloseTafsir()
      requires Valid()
      modifies this`shownTafsir
      ensures Valid() && shownTafsir == None
    {
      shownTafsir := None;
    }
  }
}
