/**
 * The sell page: the parser that turns recognised text into product lines, the
 * form's submit guard, and the upload-recognise-save pipeline that writes a
 * "sellSubmissions" record.
 */
module SellPage {
  import opened Wrappers
  import opened Text
  import Seqs
  import opened Backend
  import opened AuthContext

  /** One parsed product line. */
  datatype Item = Item(product: string, quantity: nat)

  /*
   * The line pattern is the regular expression /(.*?)(\d+)\s*$/, searched
   * (not anchored at the start) in a trimmed line. `Matches` says when the
   * pattern matches from position i with group 1 = s[i..j] and group 2 =
   * s[j..k]; `IsChosenMatch` picks the match JavaScript's backtracking returns.
   */

  /** The pattern matches `s` from `i`, with `.*?` over s[i..j], `\d+` over s[j..k] and `\s*$` over the rest. */
  ghost predicate Matches(s: string, i: int, j: int, k: int)
  {
    && 0 <= i <= j < k <= |s|
    && NoLineTerminator(s[i..j])
    && AllDigits(s[j..k])
    && AllSpace(s[k..])
  }

  /** The leftmost start, then the shortest lazy group, then the longest greedy digit group. */
  ghost predicate IsChosenMatch(s: string, i: int, j: int, k: int)
  {
    && Matches(s, i, j, k)
    && (forall i', j', k' :: Matches(s, i', j', k') ==> i <= i')
    && (forall j', k' :: Matches(s, i, j', k') ==> j <= j')
    && (forall k' :: Matches(s, i, j, k') ==> k' <= k)
  }

  /**
   * One line: when the pattern matches, the product is group 1 trimmed and the
   * quantity the value of the digits; otherwise the whole line with quantity 1.
   */
  function ParseLine(line: string): Item
  {
    var body := TrimEnd(line);
    var d := TrailingDigits(body);
    if d == 0 then Item(line, 1)
    else
      var pre := body[..|body| - d];
      Item(Trim(pre[AfterLastLineTerminator(pre)..]), DecimalValue(body[|body| - d..]))
  }

  /** Every match ends where the trailing spaces start, its digits lie in the trailing digit run, and it starts after the last line terminator before that run. */
  lemma MatchBounds(line: string, i: int, j: int, k: int)
    requires Matches(line, i, j, k)
    ensures var body := TrimEnd(line); var p := |body| - TrailingDigits(body);
      && k == |body| && p <= j && TrailingDigits(body) > 0
      && AfterLastLineTerminator(body[..p]) <= i
  {
    var body := TrimEnd(line);
    var e := |body|;
    assert IsDigit(line[j]);
    DigitIsNotSpace(line[k - 1]);
    assert e > 0 ==> line[e - 1] == body[e - 1];
    SpaceRunUnique(line, e, k);
    var d := TrailingDigits(body);
    var p := e - d;
    assert p > 0 ==> line[p - 1] == body[p - 1];
    DigitRunBound(line, j, k, p);
    var st := AfterLastLineTerminator(body[..p]);
    assert st > 0 ==> line[st - 1] == body[..p][st - 1];
    TerminatorRunBound(line, i, j, st);
    assert line[p..e] == body[p..];
    assert IsDigit(body[e - 1]);
  }

  /** Two ends of maximal runs of trailing spaces are the same position. */
  lemma SpaceRunUnique(s: string, e: int, k: int)
    requires 0 <= e <= |s| && 0 <= k <= |s|
    requires AllSpace(s[e..]) && (e == 0 || !IsSpace(s[e - 1]))
    requires AllSpace(s[k..]) && (k == 0 || !IsSpace(s[k - 1]))
    ensures e == k
  {
    SpacesFrom(s, e);
    SpacesFrom(s, k);
  }

  /** Every character from `e` on is white space. */
  lemma SpacesFrom(s: string, e: int)
    requires 0 <= e <= |s| && AllSpace(s[e..])
    ensures forall x :: e <= x < |s| ==> IsSpace(s[x])
  {
    forall x | e <= x < |s| ensures IsSpace(s[x]) {
      assert s[e..][x - e] == s[x];
    }
  }

  /** A digit run ending at `k` cannot reach back before a non-digit at `p - 1`. */
  lemma DigitRunBound(s: string, j: int, k: int, p: int)
    requires 0 <= j <= k <= |s| && 0 <= p <= k
    requires AllDigits(s[j..k]) && (p == 0 || !IsDigit(s[p - 1]))
    ensures p <= j
  {
    assert forall x :: j <= x < k ==> s[x] == s[j..k][x - j];
  }

  /** A stretch without line terminators ending at `j` cannot reach back before a line terminator at `st - 1`. */
  lemma TerminatorRunBound(s: string, i: int, j: int, st: int)
    requires 0 <= i <= j <= |s| && 0 <= st <= j
    requires NoLineTerminator(s[i..j]) && (st == 0 || IsLineTerminator(s[st - 1]))
    ensures st <= i
  {
    assert forall x :: i <= x < j ==> s[x] == s[i..j][x - i];
  }

  /** When the trimmed-right line ends in digits, the pattern matches from after the last line terminator before them. */
  lemma CanonicalMatch(line: string)
    requires TrailingDigits(TrimEnd(line)) > 0
    ensures var body := TrimEnd(line); var p := |body| - TrailingDigits(body);
      Matches(line, AfterLastLineTerminator(body[..p]), p, |body|)
  {
    var body := TrimEnd(line);
    var p := |body| - TrailingDigits(body);
    var st := AfterLastLineTerminator(body[..p]);
    assert line[st..p] == body[..p][st..];
    assert line[p..|body|] == body[p..];
  }

  /** The pattern matches a line exactly when the line, trimmed at the right, ends in a digit. */
  lemma PatternMatchesIff(line: string)
    ensures (exists i, j, k :: Matches(line, i, j, k)) <==> TrailingDigits(TrimEnd(line)) > 0
  {
    if TrailingDigits(TrimEnd(line)) > 0 {
      CanonicalMatch(line);
    }
    forall i, j, k | Matches(line, i, j, k) ensures TrailingDigits(TrimEnd(line)) > 0 {
      MatchBounds(line, i, j, k);
    }
  }

  /** A line the pattern does not match is a product of its own, untrimmed, with quantity 1. */
  lemma NoMatchIsDefault(line: string)
    requires forall i, j, k :: !Matches(line, i, j, k)
    ensures ParseLine(line) == Item(line, 1)
  {
    PatternMatchesIff(line);
  }

  /** Whenever the pattern matches, it has a chosen match: the one backtracking returns. */
  lemma ChosenMatchExists(line: string)
    requires exists i, j, k :: Matches(line, i, j, k)
    ensures exists i, j, k :: IsChosenMatch(line, i, j, k)
  {
    PatternMatchesIff(line);
    var body := TrimEnd(line);
    var p := |body| - TrailingDigits(body);
    var st := AfterLastLineTerminator(body[..p]);
    CanonicalMatch(line);
    forall i, j, k | Matches(line, i, j, k) ensures st <= i && p <= j && k == |body| {
      MatchBounds(line, i, j, k);
    }
    assert IsChosenMatch(line, st, p, |body|);
  }

  /** On a match, `ParseLine` gives group 1 trimmed as the product and group 2's value as the quantity. */
  lemma ChosenMatchIsParsed(line: string, i: int, j: int, k: int)
    requires IsChosenMatch(line, i, j, k)
    ensures ParseLine(line) == Item(Trim(line[i..j]), DecimalValue(line[j..k]))
  {
    var body := TrimEnd(line);
    var p := |body| - TrailingDigits(body);
    var st := AfterLastLineTerminator(body[..p]);
    MatchBounds(line, i, j, k);
    CanonicalMatch(line);
    assert i == st;
    assert j == p;
    assert body == line[..|body|];
    assert line[st..p] == body[..p][st..] && line[p..k] == body[p..];
  }

  /**
   * A line that ends in a maximal run of digits `ds`: the quantity is the value of
   * `ds`, and the product is the trimmed text of `pre` after its last line
   * terminator, which is all of `pre` when it has none.
   */
  lemma ParseDigitEndedLine(pre: string, ds: string)
    requires ds != [] && AllDigits(ds)
    requires pre == [] || !IsDigit(pre[|pre| - 1])
    ensures ParseLine(pre + ds) == Item(Trim(pre[AfterLastLineTerminator(pre)..]), DecimalValue(ds))
    ensures NoLineTerminator(pre) ==> ParseLine(pre + ds).product == Trim(pre)
  {
    var line := pre + ds;
    DigitIsNotSpace(line[|line| - 1]);
    assert TrimEnd(line) == line;
    TrailingDigitsOf(pre, ds);
    assert line[..|pre|] == pre && line[|pre|..] == ds;
    if NoLineTerminator(pre) {
      LastTerminatorUnique(pre, 0);
      assert pre[0..] == pre;
    }
  }

  /** The position after the last line terminator is the only one with a terminator before it and none after it. */
  lemma LastTerminatorUnique(s: string, k: int)
    requires 0 <= k <= |s|
    requires NoLineTerminator(s[k..]) && (k == 0 || IsLineTerminator(s[k - 1]))
    ensures k == AfterLastLineTerminator(s)
  {
    var st := AfterLastLineTerminator(s);
    TerminatorRunBound(s, k, |s|, st);
    TerminatorRunBound(s, st, |s|, k);
  }

  /** The digit run that ends `pre + ds` is exactly `ds` when `pre` does not end in a digit. */
  lemma TrailingDigitsOf(pre: string, ds: string)
    requires AllDigits(ds)
    requires pre == [] || !IsDigit(pre[|pre| - 1])
    ensures TrailingDigits(pre + ds) == |ds|
  {
    var s := pre + ds;
    var d := TrailingDigits(s);
    assert forall i :: |s| - d <= i < |s| ==> s[|s| - d..][i - (|s| - d)] == s[i];
    assert forall i :: |pre| <= i < |s| ==> s[i] == ds[i - |pre|];
    assert pre != [] ==> s[|pre| - 1] == pre[|pre| - 1];
  }

  /** A trimmed line that does not end in a digit is the product itself, with quantity 1. */
  lemma ParseLineWithoutDigit(line: string)
    requires IsTrimmed(line)
    requires line == [] || !IsDigit(line[|line| - 1])
    ensures ParseLine(line) == Item(line, 1)
  {
  }

  /** Nothing is validated: a line of digits only is parsed with an empty product. */
  lemma ParseDigitsOnlyLine(ds: string)
    requires ds != [] && AllDigits(ds)
    ensures ParseLine(ds) == Item("", DecimalValue(ds))
  {
    ParseDigitEndedLine("", ds);
    assert "" + ds == ds;
  }

  /**
   * A product name, one space and a count: the name and the count's value come
   * back. Nothing is validated, so a count of "0" gives quantity 0.
   */
  lemma ParseCountedLine(name: string, ds: string)
    requires IsTrimmed(name) && NoLineTerminator(name)
    requires name == [] || !IsDigit(name[|name| - 1])
    requires ds != [] && AllDigits(ds)
    ensures ParseLine(name + " " + ds) == Item(name, DecimalValue(ds))
    ensures ds == "0" ==> ParseLine(name + " " + ds).quantity == 0
  {
    var pre := name + " ";
    assert NoLineTerminator(pre) by {
      assert forall x :: 0 <= x < |name| ==> pre[x] == name[x];
    }
    ParseDigitEndedLine(pre, ds);
    assert pre + ds == name + " " + ds;
    TrimSpaceAfter(name);
    assert ds == "0" ==> DecimalValue(ds) == 0;
  }

  /** Trimming a trimmed name followed by one space gives the name. */
  lemma TrimSpaceAfter(name: string)
    requires IsTrimmed(name)
    ensures Trim(name + " ") == name
  {
    var s := name + " ";
    if name == [] {
      assert SpaceRunEnd(s, 1) == 1;
      assert TrimStart(s) == [];
    } else {
      assert s[0] == name[0];
      assert TrimStart(s) == s;
      assert s[|name| - 1] == name[|name| - 1];
      assert SpaceRunStart(s, |name|) == |name|;
      assert s[..|name|] == name;
    }
  }

  predicate NonEmpty(line: string)
  {
    |line| > 0
  }

  /** `parseItems`: split on "\n", trim each line, drop empty ones, parse the rest in order. */
  function ParseItems(text: string): seq<Item>
  {
    Seqs.Map(ParseLine, Seqs.Filter(NonEmpty, Seqs.Map(Trim, Split(text, '\n'))))
  }

  /** Text without a line feed gives no item when it is blank and one item, the parse of the trimmed line, otherwise. */
  lemma ParseItemsOfLine(line: string)
    requires '\n' !in line
    ensures ParseItems(line) == if Trim(line) == [] then [] else [ParseLine(Trim(line))]
  {
    SplitNoSeparator(line, '\n');
    assert Seqs.Map(Trim, [line]) == [Trim(line)];
  }

  /** Lines separated by a line feed are parsed independently and their items kept in input order. */
  lemma ParseItemsConcat(a: string, b: string)
    ensures ParseItems(a + "\n" + b) == ParseItems(a) + ParseItems(b)
  {
    SplitConcat(a, b, '\n');
    var la, lb := Split(a, '\n'), Split(b, '\n');
    Seqs.MapConcat(Trim, la, lb);
    Seqs.FilterConcat(NonEmpty, Seqs.Map(Trim, la), Seqs.Map(Trim, lb));
    Seqs.MapConcat(ParseLine, Seqs.Filter(NonEmpty, Seqs.Map(Trim, la)), Seqs.Filter(NonEmpty, Seqs.Map(Trim, lb)));
  }

  /** There are never more items than "\n"-separated lines. */
  lemma ParseItemsBound(text: string)
    ensures |ParseItems(text)| <= multiset(text)['\n'] + 1
  {
    SplitCount(text, '\n');
  }

  /** Every product is trimmed and holds no line feed. */
  lemma ParseItemsProducts(text: string)
    ensures forall it :: it in ParseItems(text) ==> IsTrimmed(it.product) && '\n' !in it.product
  {
    var raws := Split(text, '\n');
    var lines := Seqs.Map(Trim, raws);
    var kept := Seqs.Filter(NonEmpty, lines);
    forall i | 0 <= i < |lines| ensures IsTrimmed(lines[i]) && '\n' !in lines[i] {
      assert raws[i] in raws;
      TrimKeepsAbsent(raws[i], '\n');
    }
    forall it | it in ParseItems(text) ensures IsTrimmed(it.product) && '\n' !in it.product {
      var n :| 0 <= n < |kept| && it == ParseLine(kept[n]);
      assert kept[n] in lines;
      ParseLineProduct(kept[n]);
    }
  }

  /** The product of a trimmed line without line feeds is trimmed and has no line feed. */
  lemma ParseLineProduct(line: string)
    requires IsTrimmed(line) && '\n' !in line
    ensures IsTrimmed(ParseLine(line).product) && '\n' !in ParseLine(line).product
  {
    var body := TrimEnd(line);
    var d := TrailingDigits(body);
    if d > 0 {
      var pre := body[..|body| - d];
      var k := AfterLastLineTerminator(pre);
      TrimKeepsNoTerminator(pre[k..]);
      NoTerminatorNoLineFeed(Trim(pre[k..]));
    }
  }

  /** A blank line between two pieces of text adds no item. */
  lemma ParseItemsSkipsBlankLine(a: string, blank: string, b: string)
    requires AllSpace(blank) && '\n' !in blank
    ensures ParseItems(a + "\n" + blank + "\n" + b) == ParseItems(a) + ParseItems(b)
  {
    var rest := blank + "\n" + b;
    LineFeedsRegroup(a, blank, b);
    ParseItemsConcat(blank, b);
    ParseItemsOfBlank(blank);
    ParseItemsConcat(a, rest);
  }

  lemma LineFeedsRegroup(a: string, mid: string, b: string)
    ensures a + "\n" + mid + "\n" + b == a + "\n" + (mid + "\n" + b)
  {
  }

  /** A white-space-only line yields no item. */
  lemma ParseItemsOfBlank(blank: string)
    requires AllSpace(blank) && '\n' !in blank
    ensures ParseItems(blank) == []
  {
    TrimAllSpace(blank);
    ParseItemsOfLine(blank);
  }

  /** A "sellSubmissions" record as the page writes it. */
  datatype SellSubmission = SellSubmission(
    userId: string,
    pickupLocation: string,
    imageUrl: string,
    extractedText: string,
    parsedItems: seq<Item>,
    createdAt: Timestamp)

  /** What the page shows: nothing but a spinner while auth loads, a sign-in prompt, the confirmation, or the form. */
  datatype View = Loading | SignInPrompt | Confirmation | Form

  function PageView(loading: bool, user: Option<UserData>, submitted: bool): (v: View)
    ensures v == Loading <==> loading
    ensures v == SignInPrompt <==> !loading && user.None?
    ensures v == Form <==> !loading && user.Some? && !submitted
    ensures v == Confirmation <==> !loading && user.Some? && submitted
  {
    if loading then Loading
    else if user.None? then SignInPrompt
    else if submitted then Confirmation
    else Form
  }

  /** A record's items are the parse of its own recognised text. */
  ghost predicate HoldsOwnParse(r: SellSubmission)
  {
    r.parsedItems == ParseItems(r.extractedText)
  }

  /** Appending a record that holds its own parse keeps every record holding its own. */
  lemma AppendKeepsOwnParse(records: seq<SellSubmission>, r: SellSubmission)
    requires forall x :: x in records ==> HoldsOwnParse(x)
    requires HoldsOwnParse(r)
    ensures forall x :: x in records + [r] ==> HoldsOwnParse(x)
  {
  }

  /** The form and what it has written: blob paths to storage and records to "sellSubmissions". */
  class SellForm {
    var file: Option<File>
    var pickupLocation: string
    var submitted: bool
    var uploading: bool
    var blobs: seq<string>
    var submissions: seq<SellSubmission>

    /** Every stored record carries the parse of its own recognised text. */
    ghost predicate Valid()
      reads this`submissions
    {
      forall r :: r in submissions ==> HoldsOwnParse(r)
    }

    constructor ()
      ensures Valid()
      ensures file == None && pickupLocation == "" && !submitted && !uploading
      ensures blobs == [] && submissions == []
    {
      file := None;
      pickupLocation := "";
      submitted := false;
      uploading := false;
      blobs := [];
      submissions := [];
    }

    /** The submit button is enabled when no upload runs, a file is chosen and a pickup location is typed. */
    predicate SubmitEnabled()
      reads this
    {
      !(uploading || file.None? || pickupLocation == "")
    }

    method ChooseFile(f: Option<File>)
      modifies this
      ensures file == f
      ensures pickupLocation == old(pickupLocation) && submitted == old(submitted) && uploading == old(uploading)
      ensures blobs == old(blobs) && submissions == old(submissions)
    {
      file := f;
    }

    method SetPickupLocation(value: string)
      modifies this
      ensures pickupLocation == value
      ensures file == old(file) && submitted == old(submitted) && uploading == old(uploading)
      ensures blobs == old(blobs) && submissions == old(submissions)
    {
      pickupLocation := value;
    }

    /**
     * `handleSubmit`: without a user or a file nothing happens. Otherwise the file
     * is uploaded under "uploads/", its text recognised and parsed, and the record
     * saved; `submitted` is set only when every step succeeded, and `uploading`
     * is false again afterwards whatever failed.
     */
    method HandleSubmit(user: Option<UserData>, now: nat, serverTime: Timestamp, steps: Steps)
      requires Valid()
      modifies this
      ensures Valid()
      ensures user.None? || old(file).None? ==>
        && file == old(file) && pickupLocation == old(pickupLocation)
        && submitted == old(submitted) && uploading == old(uploading)
        && blobs == old(blobs) && submissions == old(submissions)
      ensures user.Some? && old(file).Some? ==>
        && !uploading
        && file == old(file) && pickupLocation == old(pickupLocation)
        && submitted == (old(submitted) || steps.Succeeded())
        && blobs == old(blobs) + (if steps.uploaded then [UploadPath("uploads", user.value.uid, now, old(file).value.name)] else [])
        && submissions == old(submissions) + (if steps.Succeeded() then
             [SellSubmission(user.value.uid, old(pickupLocation), steps.downloadUrl.value, steps.recognisedText.value,
                             ParseItems(steps.recognisedText.value), serverTime)]
           else [])
    {
      if user.None? || file.None? {
        assert Valid();
        return;
      }
      uploading := true;
      assert Valid();
      if steps.uploaded {
        blobs := blobs + [UploadPath("uploads", user.value.uid, now, file.value.name)];
        assert Valid();
        if steps.downloadUrl.Some? && steps.recognisedText.Some? && steps.saved {
          var text := steps.recognisedText.value;
          var record := SellSubmission(user.value.uid, pickupLocation, steps.downloadUrl.value, text, ParseItems(text), serverTime);
          AppendKeepsOwnParse(submissions, record);
          submissions := submissions + [record];
          submitted := true;
          assert Valid();
        }
      }
      uploading := false;
      assert Valid();
    }

    /** `resetForm`: back to an empty, unsubmitted form. */
    method ResetForm()
      modifies this
      ensures !submitted && file == None && pickupLocation == ""
      ensures uploading == old(uploading) && blobs == old(blobs) && submissions == old(submissions)
    {
      submitted := false;
      file := None;
      pickupLocation := "";
    }
  }

  /** An enabled button means the submit guard's file check passes, so a signed-in user's click reaches the pipeline. */
  lemma EnabledSubmitPassesGuard(f: SellForm)
    ensures f.SubmitEnabled() <==> !f.uploading && f.file.Some? && f.pickupLocation != ""
  {
  }
}
