/** The punch-in page: resolves the poem id from the query string, shows that poem, builds the
    four exam options from its title, and runs the reading, examining, success and share flags. */
module PunchIn {
  import opened Wrappers
  import opened Poems
  import opened Decimal

  /** The query-string test: present, non-empty, all ASCII digits, value in 1..count. */
  predicate AcceptsPoemId(raw: Option<string>, count: nat): (ok: bool)
    ensures ok <==> raw.Some? && AllDigits(raw.value) && 1 <= DecimalValue(raw.value) <= count
  {
    raw.Some? && raw.value != "" && AllDigits(raw.value)
    && 0 < DecimalValue(raw.value) <= count
  }

  /** The validated poem id: the query value when the test accepts it, otherwise 1. */
  function ResolvePoemId(raw: Option<string>, count: nat): (id: nat)
    ensures 1 <= id
    ensures count > 0 ==> id <= count
    ensures id != 1 ==> raw.Some? && AllDigits(raw.value) && DecimalValue(raw.value) == id
    ensures (raw.Some? && AllDigits(raw.value) && 1 <= DecimalValue(raw.value) <= count)
            ==> id == DecimalValue(raw.value)
  {
    if AcceptsPoemId(raw, count) then DecimalValue(raw.value) else 1
  }

  /** Input the test rejects falls back to poem 1: a missing or empty parameter, any character
      other than a digit (a sign, a letter, a decimal point), the value 0, or a value past the
      end of the dataset. */
  lemma ResolveRejectsMalformed(raw: Option<string>, count: nat)
    requires || raw.None?
             || raw.value == ""
             || (exists i :: 0 <= i < |raw.value| && !IsDigit(raw.value[i]))
             || (AllDigits(raw.value) && (DecimalValue(raw.value) == 0 || DecimalValue(raw.value) > count))
    ensures ResolvePoemId(raw, count) == 1
  {
  }

  /** The concrete cases "0", "-5", "abc" and a value one past the end all resolve to 1. */
  lemma ResolveExamples(count: nat)
    ensures ResolvePoemId(Some("0"), count) == 1
    ensures ResolvePoemId(Some("-5"), count) == 1
    ensures ResolvePoemId(Some("abc"), count) == 1
    ensures ResolvePoemId(Some(NatToString(count + 1)), count) == 1
  {
    assert DecimalValue("0") == 0;
    assert !IsDigit("-5"[0]);
    assert !IsDigit("abc"[0]);
    DecimalRoundTrip(count + 1);
  }

  /** Every id in range, written in decimal, resolves to itself. */
  lemma ResolveWrittenId(id: nat, count: nat)
    requires 1 <= id <= count
    ensures ResolvePoemId(Some(NatToString(id)), count) == id
  {
    DecimalRoundTrip(id);
  }

  /** The poem shown for an id: `POEMS[poemId - 1] || POEMS[0]`. */
  function DisplayedPoem(poems: seq<Poem>, poemId: int): (p: Poem)
    requires |poems| > 0
    ensures 1 <= poemId <= |poems| ==> p == poems[poemId - 1]
    ensures !(1 <= poemId <= |poems|) ==> p == poems[0]
  {
    if 1 <= poemId <= |poems| then poems[poemId - 1] else poems[0]
  }

  /** For a non-empty dataset the resolved id always indexes a poem, and with dense ids the
      poem shown carries the resolved id. */
  lemma DisplayedPoemMatchesId(poems: seq<Poem>, raw: Option<string>)
    requires |poems| > 0
    ensures var id := ResolvePoemId(raw, |poems|);
            1 <= id <= |poems| && DisplayedPoem(poems, id) == poems[id - 1]
    ensures DenseIds(poems) ==> DisplayedPoem(poems, ResolvePoemId(raw, |poems|)).id == ResolvePoemId(raw, |poems|)
  {
  }

  /** One exam option: its index, its image URL and its accessible label. */
  datatype ExamOption = ExamOption(id: nat, src: string, alt: string)

  /** The option letter `String.fromCharCode(65 + i)`: A, B, C, D for the four options. */
  function OptionLetter(i: nat): (c: char)
    requires i < 26
  {
    (65 + i) as char
  }

  const SrcPrefix: string := "https://picsum.photos/seed/"
  const SrcSuffix: string := "/400/400"
  const AltPrefix: string := "意境考核选项 "

  /** The option built for index i of a poem titled `title`: it carries the index, its image
      URL writes the index (one digit for the four options used) after the title, and its label
      ends in the index's capital letter. */
  function MakeOption(title: string, i: nat): (o: ExamOption)
    requires i < 26
    ensures o.id == i
    ensures i < 10 ==> o.src == SrcPrefix + title + "-" + [DigitChar(i)] + SrcSuffix
    ensures |o.alt| == |AltPrefix| + 1 && o.alt[..|AltPrefix|] == AltPrefix
    ensures 'A' <= o.alt[|AltPrefix|] <= 'Z' && o.alt[|AltPrefix|] as int - 'A' as int == i
  {
    ExamOption(i, SrcPrefix + title + "-" + NatToString(i) + SrcSuffix, AltPrefix + [OptionLetter(i)])
  }

  /** The seven keywords: the first two characters of the title and six fixed words. */
  function Keywords(title: string): (k: seq<string>)
    ensures |k| == 7
  {
    [if |title| <= 2 then title else title[..2],
     "nature", "mountain", "river", "ink painting", "chinese culture", "ancient"]
  }

  /** Options for a (sorted and sliced) keyword list: one per keyword, numbered by position.
      The keyword itself is not used. */
  function OptionsFor(title: string, keywords: seq<string>): seq<ExamOption>
    requires |keywords| <= 26
  {
    seq(|keywords|, i requires 0 <= i < |keywords| => MakeOption(title, i))
  }

  /** The order of the keywords does not matter: any two keyword lists of the same length give
      the same options. This is why the comparator's order is not modelled. */
  lemma OptionsIgnoreKeywords(title: string, k1: seq<string>, k2: seq<string>)
    requires |k1| == |k2| <= 26
    ensures OptionsFor(title, k1) == OptionsFor(title, k2)
  {
  }

  /** `examImages`: the keywords, reordered by the title-seeded comparator and cut to four,
      each mapped to its option. The comparator's order is not modelled (see
      OptionsIgnoreKeywords); the first four keywords stand in for the four sorted ones. */
  function ExamImages(title: string): (opts: seq<ExamOption>)
    ensures |opts| == 4
    ensures forall i :: 0 <= i < 4 ==> opts[i] == MakeOption(title, i)
  {
    OptionsFor(title, Keywords(title)[..4])
  }

  /** There are exactly four options with ids 0, 1, 2, 3 in order, each determined by the title
      and its index alone, labelled A to D, with pairwise distinct labels and image URLs. */
  lemma ExamImagesShape(title: string)
    ensures |ExamImages(title)| == 4
    ensures forall i :: 0 <= i < 4 ==> ExamImages(title)[i].id == i
    ensures forall i :: 0 <= i < 4 ==> ExamImages(title)[i] == MakeOption(title, i)
    ensures forall i :: 0 <= i < 4 ==>
              ExamImages(title)[i].alt == AltPrefix + [OptionLetter(i)]
    ensures forall i :: 0 <= i < 4 ==> 'A' <= ExamImages(title)[i].alt[|AltPrefix|] <= 'D'
    ensures forall i, j :: 0 <= i < j < 4 ==>
              ExamImages(title)[i].alt != ExamImages(title)[j].alt
              && ExamImages(title)[i].src != ExamImages(title)[j].src
  {
    var r := ExamImages(title);
    var n := |SrcPrefix + title + "-"|;
    forall i, j | 0 <= i < j < 4
      ensures r[i].alt != r[j].alt && r[i].src != r[j].src
    {
      assert r[i].alt[|AltPrefix|] != r[j].alt[|AltPrefix|];
      assert r[i].src[n] == DigitChar(i);
      assert r[j].src[n] == DigitChar(j);
    }
  }

  /** The page's state cells. The dataset and the resolved id are fixed for the page's life. */
  class PunchInPage {
    const poems: seq<Poem>
    const poemId: nat
    var poem: Poem
    var showSuccess: bool
    var punchedIn: bool
    var isExamining: bool
    var showFlash: bool
    var showShareGuide: bool

    /** The page invariant: the id indexes the dataset and the poem is one of the dataset's;
        the flags follow the reading, examining, success, share order, so the exam is only
        open before punching in, and the success dialog and the share guide only after. */
    ghost predicate Valid()
      reads this
    {
      && |poems| > 0 && 1 <= poemId <= |poems| && poem in poems
      && (showSuccess ==> punchedIn)
      && (showShareGuide ==> punchedIn)
      && (isExamining ==> !punchedIn)
    }

    /** First render: the id from the query string, the first poem, every flag off. */
    constructor (poems: seq<Poem>, rawPoemId: Option<string>)
      requires |poems| > 0
      ensures Valid()
      ensures this.poems == poems && poemId == ResolvePoemId(rawPoemId, |poems|)
      ensures poem == poems[0]
      ensures !showSuccess && !punchedIn && !isExamining && !showFlash && !showShareGuide
    {
      this.poems := poems;
      poemId := ResolvePoemId(rawPoemId, |poems|);
      poem := poems[0];
      showSuccess, punchedIn, isExamining, showFlash, showShareGuide := false, false, false, false, false;
    }

    /** The lookup effect: shows the poem the id selects. */
    method LoadPoem()
      requires Valid()
      modifies this`poem
      ensures Valid()
      ensures poem == poems[poemId - 1]
    {
      poem := DisplayedPoem(poems, poemId);
    }

    /** handleStartExam: sets only isExamining. Its button is rendered only while reading and
        not yet punched in. */
    method StartExam()
      requires Valid()
      requires !isExamining && !punchedIn
      modifies this`isExamining
      ensures Valid() && isExamining
    {
      isExamining := true;
    }

    /** handleSelectImage: whichever option was chosen, leaves the exam, marks the poem punched in
        and opens the success dialog. No storage is written. The options are rendered only
        while examining. */
    method SelectImage(chosen: int)
      requires Valid()
      requires isExamining
      modifies this`isExamining, this`punchedIn, this`showSuccess
      ensures Valid()
      ensures !isExamining && punchedIn && showSuccess
    {
      isExamining := false;
      punchedIn := true;
      showSuccess := true;
    }

    /** handleShare: opens the share guide. Its two buttons are rendered only once punched in
        (the completion card, and the success dialog, which implies punched in). */
    method Share()
      requires Valid()
      requires punchedIn
      modifies this`showShareGuide
      ensures Valid() && showShareGuide
    {
      showShareGuide := true;
    }

    /** The share guide's close callback. */
    method CloseShareGuide()
      requires Valid()
      modifies this`showShareGuide
      ensures Valid() && !showShareGuide
    {
      showShareGuide := false;
    }

    /** The success dialog's close button: clears only showSuccess, so punchedIn stays. */
    method CloseSuccess()
      requires Valid()
      modifies this`showSuccess
      ensures Valid() && !showSuccess
    {
      showSuccess := false;
    }

    /** The animation toggle buttons, rendered only while reading. */
    method SetShowFlash(show: bool)
      requires Valid()
      requires !isExamining
      modifies this`showFlash
      ensures Valid() && showFlash == show
    {
      showFlash := show;
    }

    /** The back button: while examining it returns to reading; otherwise it navigates home,
        which the result reports. */
    method Back() returns (navigateHome: bool)
      requires Valid()
      modifies this`isExamining
      ensures Valid()
      ensures navigateHome == !old(isExamining)
      ensures !isExamining
    {
      if isExamining {
        isExamining := false;
        navigateHome := false;
      } else {
        navigateHome := true;
      }
    }
  }

  /** A whole session: start the exam, pick any option, close the dialog, share, close the
      guide. The poem stays punched in and no dialog is left open. */
  method ExamSession(page: PunchInPage, chosen: int)
    requires page.Valid()
    requires !page.punchedIn && !page.isExamining
    modifies page
    ensures page.Valid()
    ensures page.punchedIn && !page.isExamining && !page.showSuccess && !page.showShareGuide
    ensures page.poem == old(page.poem) && page.showFlash == old(page.showFlash)
  {
    page.StartExam();
    page.SelectImage(chosen);
    page.CloseSuccess();
    page.Share();
    page.CloseShareGuide();
  }
}
