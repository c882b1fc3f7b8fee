/** Upgrading the images in a compose file by text replacement: replaceVersions, internal/stacks/stack_manager.go. */
module Replace {
  import opened Wrappers
  import opened Types

  // ---------------------------------------------------------------- strings.ReplaceAll

  /** Replacing the empty string puts the new one before every character and at the end. */
  function Interleave(s: string, new_: string): string {
    if s == "" then new_ else new_ + [s[0]] + Interleave(s[1..], new_)
  }

  /** The pieces between two characters are independent of one another. */
  lemma {:induction false} InterleavePieces(a: string, c: char, b: string, new_: string)
    ensures Interleave("", new_) == new_
    ensures Interleave(a + [c] + b, new_) == Interleave(a, new_) + [c] + Interleave(b, new_)
  {
    if a == "" {
      assert "" + [c] + b == [c] + b && ([c] + b)[1..] == b;
    } else {
      var t := a + [c] + b;
      InterleavePieces(a[1..], c, b, new_);
      assert t[0] == a[0] && t[1..] == a[1..] + [c] + b;
      var x, y, z := new_ + [a[0]], Interleave(a[1..], new_), Interleave(b, new_);
      assert x + (y + [c] + z) == x + y + [c] + z;
    }
  }

  function ReplaceAll(s: string, old_: string, new_: string): string
    decreases |s|
  {
    if old_ == "" then Interleave(s, new_)
    else if s == "" then ""
    else if old_ <= s then new_ + ReplaceAll(s[|old_|..], old_, new_)
    else [s[0]] + ReplaceAll(s[1..], old_, new_)
  }

  predicate OccursAt(old_: string, s: string, j: nat) {
    j + |old_| <= |s| && s[j..j + |old_|] == old_
  }

  predicate Occurs(old_: string, s: string) {
    exists j: nat :: j <= |s| && OccursAt(old_, s, j)
  }

  lemma OccursLater(s: string, old_: string, j: nat)
    requires s != ""
    ensures OccursAt(old_, s[1..], j) <==> OccursAt(old_, s, j + 1)
  {
    if j + 1 + |old_| <= |s| { assert s[1..][j..j + |old_|] == s[j + 1..j + 1 + |old_|]; }
  }

  /** The text before the first occurrence is copied. */
  lemma {:induction false} CopiedBefore(p: string, t: string, old_: string, new_: string)
    requires old_ != "" && forall j: nat :: j < |p| ==> !OccursAt(old_, p + t, j)
    ensures ReplaceAll(p + t, old_, new_) == p + ReplaceAll(t, old_, new_)
    decreases |p|
  {
    if p == "" {
      assert p + t == t;
    } else {
      var s := p + t;
      assert s[1..] == p[1..] + t;
      forall j: nat | j < |p| - 1
        ensures !OccursAt(old_, p[1..] + t, j)
      {
        OccursLater(s, old_, j);
      }
      CopiedBefore(p[1..], t, old_, new_);
      OneCopied(s, old_, new_);
      HeadBack(p, ReplaceAll(t, old_, new_));
    }
  }

  lemma HeadBack(p: string, r: string)
    requires p != ""
    ensures [p[0]] + (p[1..] + r) == p + r
  {
    assert p == [p[0]] + p[1..];
  }

  lemma OneCopied(s: string, old_: string, new_: string)
    requires old_ != "" && s != "" && !OccursAt(old_, s, 0)
    ensures ReplaceAll(s, old_, new_) == [s[0]] + ReplaceAll(s[1..], old_, new_)
  {
    if |old_| <= |s| { assert s[0..0 + |old_|] == s[..|old_|]; }
  }

  lemma NothingToReplace(s: string, old_: string, new_: string)
    requires old_ != "" && !Occurs(old_, s)
    ensures ReplaceAll(s, old_, new_) == s
  {
    assert s + "" == s;
    CopiedBefore(s, "", old_, new_);
  }

  lemma {:induction false} SameReplaced(s: string, old_: string)
    requires old_ != ""
    ensures ReplaceAll(s, old_, old_) == s
    decreases |s|
  {
    if s == "" {
    } else if old_ <= s {
      SameReplaced(s[|old_|..], old_);
      assert s == old_ + s[|old_|..];
    } else {
      SameReplaced(s[1..], old_);
      assert s == [s[0]] + s[1..];
    }
  }

  lemma {:induction false} LengthReplaced(s: string, old_: string, new_: string)
    requires old_ != ""
    ensures |new_| >= |old_| ==> |ReplaceAll(s, old_, new_)| >= |s|
    ensures |new_| <= |old_| ==> |ReplaceAll(s, old_, new_)| <= |s|
    decreases |s|
  {
    if s != "" {
      LengthReplaced(if old_ <= s then s[|old_|..] else s[1..], old_, new_);
    }
  }

  /** Replacing a string by another one changes every text in which it occurs. */
  lemma {:induction false} OccurrenceChanges(s: string, old_: string, new_: string, j: nat)
    requires old_ != "" && old_ != new_ && j <= |s| && OccursAt(old_, s, j)
    ensures ReplaceAll(s, old_, new_) != s
    decreases |s|
  {
    if old_ <= s {
      var t := s[|old_|..];
      LengthReplaced(t, old_, new_);
      FrontsDiffer(old_, t, new_, ReplaceAll(t, old_, new_));
      assert s == old_ + t;
    } else {
      assert j > 0 by {
        if |old_| <= |s| { assert s[0..0 + |old_|] == s[..|old_|]; }
      }
      OccursLater(s, old_, j - 1);
      OccurrenceChanges(s[1..], old_, new_, j - 1);
      assert ReplaceAll(s, old_, new_)[1..] == ReplaceAll(s[1..], old_, new_);
    }
  }

  lemma FrontsDiffer(a: string, x: string, b: string, y: string)
    requires a != b && (|b| >= |a| ==> |y| >= |x|) && (|b| <= |a| ==> |y| <= |x|)
    ensures b + y != a + x
  {
    if |a| == |b| {
      assert (a + x)[..|a|] == a && (b + y)[..|a|] == b;
    } else {
      assert |b + y| != |a + x|;
    }
  }

  /** A pass leaves a text as it is exactly if it looks for nothing in it, or puts back what it finds. */
  lemma LeftAloneExactly(s: string, old_: string, new_: string)
    requires old_ != ""
    ensures ReplaceAll(s, old_, new_) == s <==> old_ == new_ || !Occurs(old_, s)
  {
    if old_ == new_ {
      SameReplaced(s, old_);
    } else if Occurs(old_, s) {
      var j: nat :| j <= |s| && OccursAt(old_, s, j);
      OccurrenceChanges(s, old_, new_, j);
    } else {
      NothingToReplace(s, old_, new_);
    }
  }

  lemma WholeReplaced(old_: string, new_: string)
    requires old_ != ""
    ensures ReplaceAll(old_, old_, new_) == new_
  {
    assert ReplaceAll(old_[|old_|..], old_, new_) == "";
  }

  // ---------------------------------------------------------------- lines

  /** A string without newlines is replaced line by line. */
  lemma {:induction false} LineByLine(a: string, b: string, old_: string, new_: string)
    requires old_ != "" && '\n' !in old_
    ensures ReplaceAll(a + "\n" + b, old_, new_) == ReplaceAll(a, old_, new_) + "\n" + ReplaceAll(b, old_, new_)
    decreases |a|
  {
    var s := a + "\n" + b;
    if a == "" {
      assert s == "\n" + b && s[0] == '\n' && s[1..] == b;
      assert old_[0] in old_ && old_[0] != s[0];
    } else if old_ <= s {
      PrefixWithinLine(a, b, old_);
      assert s[|old_|..] == a[|old_|..] + "\n" + b;
      LineByLine(a[|old_|..], b, old_, new_);
      Regroup(new_, ReplaceAll(a[|old_|..], old_, new_), "\n", ReplaceAll(b, old_, new_));
    } else {
      assert old_ <= a ==> old_ <= s;
      assert s[1..] == a[1..] + "\n" + b && s[0] == a[0];
      LineByLine(a[1..], b, old_, new_);
      Regroup([a[0]], ReplaceAll(a[1..], old_, new_), "\n", ReplaceAll(b, old_, new_));
    }
  }

  lemma Regroup(a: string, b: string, c: string, d: string)
    ensures a + (b + c + d) == (a + b) + c + d
  {
  }

  lemma PrefixWithinLine(a: string, b: string, old_: string)
    requires '\n' !in old_ && old_ <= a + "\n" + b
    ensures old_ <= a
  {
    var s := a + "\n" + b;
    assert s[|a|] == '\n';
    assert forall k :: 0 <= k < |old_| ==> old_[k] == s[k] && old_[k] in old_;
    assert old_ == s[..|old_|] == a[..|old_|];
  }

  // ---------------------------------------------------------------- documents

  type Pairs = seq<(string, string)>

  /** A line of the compose file: one that is none of the upgrade's business, or one that ends in the image of entry k. */
  datatype Line = Plain(text: string) | ImageLine(before: string, k: nat)

  predicate LinesValid(lines: seq<Line>, n: nat) {
    forall j :: 0 <= j < |lines| && lines[j].ImageLine? ==> lines[j].k < n
  }

  function LineText(line: Line, images: seq<string>): string
    requires line.ImageLine? ==> line.k < |images|
  {
    match line
    case Plain(text) => text
    case ImageLine(before, k) => before + images[k]
  }

  /** The file in which every entry has the given image. */
  function Text(lines: seq<Line>, images: seq<string>): string
    requires LinesValid(lines, |images|)
  {
    if lines == [] then ""
    else if |lines| == 1 then LineText(lines[0], images)
    else LineText(lines[0], images) + "\n" + Text(lines[1..], images)
  }

  /** Image names hold neither newlines nor blanks, and a blank stands before them. */
  predicate IsImageName(image: string) {
    image != "" && '\n' !in image && ' ' !in image
  }

  predicate ImageNames(pairs: Pairs) {
    forall i :: 0 <= i < |pairs| ==> IsImageName(pairs[i].0) && IsImageName(pairs[i].1)
  }

  /** The text around the images does not mention this image. */
  ghost predicate CleanOf(lines: seq<Line>, old_: string) {
    forall j :: 0 <= j < |lines| ==>
      && !Occurs(old_, if lines[j].Plain? then lines[j].text else lines[j].before)
      && (lines[j].ImageLine? ==> lines[j].before != "" && lines[j].before[|lines[j].before| - 1] == ' ')
  }

  ghost predicate Clean(lines: seq<Line>, pairs: Pairs) {
    forall i :: 0 <= i < |pairs| ==> CleanOf(lines, pairs[i].0)
  }

  function Olds(pairs: Pairs): seq<string> {
    seq(|pairs|, k requires 0 <= k < |pairs| => pairs[k].0)
  }

  function News(pairs: Pairs): seq<string> {
    seq(|pairs|, k requires 0 <= k < |pairs| => pairs[k].1)
  }

  /** Text before a blank and an image name after it do not join to form another image name. */
  lemma NoStraddling(before: string, image: string, old_: string, j: nat)
    requires before != "" && before[|before| - 1] == ' ' && ' ' !in old_ && old_ != "" && !Occurs(old_, before)
    requires j < |before|
    ensures !OccursAt(old_, before + image, j)
  {
    var s := before + image;
    if j + |old_| <= |before| {
      assert before[j..j + |old_|] == s[j..j + |old_|];
      assert !OccursAt(old_, before, j);
    } else if j + |old_| <= |s| {
      var m := |before| - 1 - j;
      assert s[j..j + |old_|][m] == s[|before| - 1] == ' ';
      assert old_[m] in old_;
    }
  }

  function ReplaceEach(images: seq<string>, old_: string, new_: string): seq<string> {
    seq(|images|, k requires 0 <= k < |images| => ReplaceAll(images[k], old_, new_))
  }

  /** Whatever images stand in the file, a pass replaces within each of them and changes nothing else. */
  lemma LinePass(line: Line, images: seq<string>, old_: string, new_: string)
    requires (line.ImageLine? ==> line.k < |images|) && CleanOf([line], old_) && IsImageName(old_)
    ensures ReplaceAll(LineText(line, images), old_, new_) == LineText(line, ReplaceEach(images, old_, new_))
  {
    assert [line][0] == line;
    match line
    case Plain(text) => NothingToReplace(text, old_, new_);
    case ImageLine(before, k) =>
      forall j: nat | j < |before| {
        NoStraddling(before, images[k], old_, j);
      }
      CopiedBefore(before, images[k], old_, new_);
  }

  lemma {:induction false} TextPass(lines: seq<Line>, images: seq<string>, old_: string, new_: string)
    requires LinesValid(lines, |images|) && CleanOf(lines, old_) && IsImageName(old_)
    ensures ReplaceAll(Text(lines, images), old_, new_) == Text(lines, ReplaceEach(images, old_, new_))
  {
    if lines != [] {
      var after := ReplaceEach(images, old_, new_);
      assert CleanOf([lines[0]], old_);
      LinePass(lines[0], images, old_, new_);
      if |lines| > 1 {
        TextPass(lines[1..], images, old_, new_);
        LineByLine(LineText(lines[0], images), Text(lines[1..], images), old_, new_);
      }
    }
  }

  // ---------------------------------------------------------------- all passes

  function Passes(document: string, pairs: Pairs): string {
    if pairs == [] then document
    else ReplaceAll(Passes(document, pairs[..|pairs| - 1]), pairs[|pairs| - 1].0, pairs[|pairs| - 1].1)
  }

  function PassEach(images: seq<string>, pairs: Pairs): seq<string> {
    seq(|images|, k requires 0 <= k < |images| => Passes(images[k], pairs))
  }

  /** All passes together carry every image to where they carry that image alone, and leave all other text as it is. */
  lemma {:induction false} PassesActOnImages(lines: seq<Line>, images: seq<string>, pairs: Pairs)
    requires LinesValid(lines, |images|) && Clean(lines, pairs) && ImageNames(pairs)
    ensures Passes(Text(lines, images), pairs) == Text(lines, PassEach(images, pairs))
  {
    if pairs == [] {
      assert PassEach(images, pairs) == images;
    } else {
      var n := |pairs| - 1;
      var before := pairs[..n];
      assert Clean(lines, before) && ImageNames(before);
      PassesActOnImages(lines, images, before);
      TextPass(lines, PassEach(images, before), pairs[n].0, pairs[n].1);
      assert ReplaceEach(PassEach(images, before), pairs[n].0, pairs[n].1) == PassEach(images, pairs);
    }
  }

  // ---------------------------------------------------------------- when the outcome is the intended one

  /** The passes take the old image of entry k, on its own, to the new one. */
  predicate Carried(pairs: Pairs, k: nat)
    requires k < |pairs|
  {
    Passes(pairs[k].0, pairs) == pairs[k].1
  }

  predicate AllCarried(pairs: Pairs) {
    forall k :: 0 <= k < |pairs| ==> Carried(pairs, k)
  }

  /** Every file made of clean text and old images comes out with the new images in their place. */
  ghost predicate UpgradesEveryFile(pairs: Pairs) {
    forall lines :: LinesValid(lines, |pairs|) && Clean(lines, pairs) ==> Passes(Text(lines, Olds(pairs)), pairs) == Text(lines, News(pairs))
  }

  lemma EachCarried(pairs: Pairs)
    requires AllCarried(pairs)
    ensures PassEach(Olds(pairs), pairs) == News(pairs)
  {
    forall k | 0 <= k < |pairs|
      ensures PassEach(Olds(pairs), pairs)[k] == News(pairs)[k]
    {
      assert Carried(pairs, k);
    }
  }

  /** That depends on the two manifests alone: it is so exactly if the passes carry each old image to its new one. */
  lemma UpgradesExactly(pairs: Pairs)
    requires ImageNames(pairs)
    ensures UpgradesEveryFile(pairs) <==> AllCarried(pairs)
  {
    if AllCarried(pairs) {
      EachCarried(pairs);
      forall lines | LinesValid(lines, |pairs|) && Clean(lines, pairs)
        ensures Passes(Text(lines, Olds(pairs)), pairs) == Text(lines, News(pairs))
      {
        PassesActOnImages(lines, Olds(pairs), pairs);
      }
    }
    if UpgradesEveryFile(pairs) {
      forall k | 0 <= k < |pairs|
        ensures Carried(pairs, k)
      {
        OneImageFile(pairs, k);
      }
    }
  }

  /** The file of one line with the image of entry k. */
  lemma OneImageFile(pairs: Pairs, k: nat)
    requires ImageNames(pairs) && k < |pairs| && UpgradesEveryFile(pairs)
    ensures Carried(pairs, k)
  {
    var lines := [ImageLine(" ", k)];
    forall i | 0 <= i < |pairs|
      ensures CleanOf(lines, pairs[i].0)
    {
      NotInBlank(pairs[i].0);
    }
    PassesActOnImages(lines, Olds(pairs), pairs);
    assert Text(lines, PassEach(Olds(pairs), pairs)) == " " + Passes(pairs[k].0, pairs);
    assert Text(lines, News(pairs)) == " " + pairs[k].1;
    assert (" " + Passes(pairs[k].0, pairs))[1..] == Passes(pairs[k].0, pairs) && (" " + pairs[k].1)[1..] == pairs[k].1;
  }

  lemma NotInBlank(image: string)
    requires IsImageName(image)
    ensures !Occurs(image, " ")
  {
    forall j: nat | j <= |" "|
      ensures !OccursAt(image, " ", j)
    {
      if j + |image| <= 1 {
        assert image[0] in image;
        assert " "[j..j + |image|][0] == ' ';
      }
    }
  }

  // ---------------------------------------------------------------- the passes one by one

  /** The image of entry k when the first n passes should be done. */
  function Due(pairs: Pairs, k: nat, n: nat): string
    requires k < |pairs|
  {
    if k < n then pairs[k].1 else pairs[k].0
  }

  /** After every single pass exactly the entries passed so far have their new images. */
  ghost predicate CarriedStepByStep(pairs: Pairs) {
    forall k, n :: 0 <= k < |pairs| && 0 <= n <= |pairs| ==> Passes(pairs[k].0, pairs[..n]) == Due(pairs, k, n)
  }

  /** Pass i looks for its old image where entry k has its own: the old one if k is still to come, else the new one. */
  ghost predicate Disturbs(pairs: Pairs, i: nat, k: nat)
    requires i < |pairs| && k < |pairs|
  {
    i != k && pairs[i].0 != pairs[i].1 && Occurs(pairs[i].0, Due(pairs, k, i))
  }

  ghost predicate Undisturbed(pairs: Pairs) {
    forall i, k :: 0 <= i < |pairs| && 0 <= k < |pairs| ==> !Disturbs(pairs, i, k)
  }

  lemma OnePass(pairs: Pairs, i: nat, k: nat)
    requires ImageNames(pairs) && i < |pairs| && k < |pairs|
    ensures ReplaceAll(Due(pairs, k, i), pairs[i].0, pairs[i].1) == Due(pairs, k, i + 1) <==> !Disturbs(pairs, i, k)
  {
    if i == k {
      WholeReplaced(pairs[i].0, pairs[i].1);
    } else {
      LeftAloneExactly(Due(pairs, k, i), pairs[i].0, pairs[i].1);
    }
  }

  lemma PassesOneMore(s: string, pairs: Pairs, n: nat)
    requires n < |pairs|
    ensures Passes(s, pairs[..n + 1]) == ReplaceAll(Passes(s, pairs[..n]), pairs[n].0, pairs[n].1)
  {
    assert pairs[..n + 1][..n] == pairs[..n];
  }

  lemma {:induction false} UndisturbedUpTo(pairs: Pairs, k: nat, n: nat)
    requires ImageNames(pairs) && k < |pairs| && n <= |pairs|
    requires forall i :: 0 <= i < n ==> !Disturbs(pairs, i, k)
    ensures Passes(pairs[k].0, pairs[..n]) == Due(pairs, k, n)
  {
    if n == 0 {
      assert pairs[..0] == [];
    } else {
      UndisturbedUpTo(pairs, k, n - 1);
      PassesOneMore(pairs[k].0, pairs, n - 1);
      OnePass(pairs, n - 1, k);
    }
  }

  /** That is so exactly if no pass finds its old image within another one where it comes by. */
  lemma StepByStepExactly(pairs: Pairs)
    requires ImageNames(pairs)
    ensures CarriedStepByStep(pairs) <==> Undisturbed(pairs)
    ensures Undisturbed(pairs) ==> AllCarried(pairs)
  {
    if Undisturbed(pairs) {
      forall k, n | 0 <= k < |pairs| && 0 <= n <= |pairs|
        ensures Passes(pairs[k].0, pairs[..n]) == Due(pairs, k, n)
      {
        UndisturbedUpTo(pairs, k, n);
      }
      assert pairs[..|pairs|] == pairs;
    }
    if CarriedStepByStep(pairs) {
      forall i, k | 0 <= i < |pairs| && 0 <= k < |pairs|
        ensures !Disturbs(pairs, i, k)
      {
        assert Passes(pairs[k].0, pairs[..i]) == Due(pairs, k, i);
        assert Passes(pairs[k].0, pairs[..i + 1]) == Due(pairs, k, i + 1);
        PassesOneMore(pairs[k].0, pairs, i);
        OnePass(pairs, i, k);
      }
    }
  }

  lemma TwoPasses(s: string, pairs: Pairs)
    requires |pairs| == 2
    ensures Passes(s, pairs) == ReplaceAll(ReplaceAll(s, pairs[0].0, pairs[0].1), pairs[1].0, pairs[1].1)
  {
    assert pairs[..2] == pairs && pairs[..0] == [];
    PassesOneMore(s, pairs, 0);
    PassesOneMore(s, pairs, 1);
  }

  /** The outcome may be right although a pass did disturb another image: here the first does the second one's work. */
  lemma DisturbedYetCarried()
    ensures var pairs := [("a", "b"), ("a-x", "b-x")];
            AllCarried(pairs) && !Undisturbed(pairs)
  {
    var pairs := [("a", "b"), ("a-x", "b-x")];
    assert OccursAt("a", "a-x", 0) && Disturbs(pairs, 0, 1);
    assert "a-x"[1..] == "-x" && "-x"[1..] == "x" && "x"[1..] == "" && "b-x"[1..] == "-x" && "b"[1..] == "";
    assert ReplaceAll("-x", "a", "b") == "-x" && ReplaceAll("a-x", "a", "b") == "b-x";
    assert ReplaceAll("b", "a-x", "b-x") == "b" && ReplaceAll("b-x", "a-x", "b-x") == "b-x";
    WholeReplaced("a", "b");
    TwoPasses("a", pairs);
    TwoPasses("a-x", pairs);
    assert Carried(pairs, 0) && Carried(pairs, 1);
  }

  function Swapped(pairs: Pairs): Pairs {
    seq(|pairs|, k requires 0 <= k < |pairs| => (pairs[k].1, pairs[k].0))
  }

  /** Going back to the old manifest gives the old file. */
  lemma UpgradeAndBack(lines: seq<Line>, pairs: Pairs)
    requires LinesValid(lines, |pairs|) && Clean(lines, pairs) && Clean(lines, Swapped(pairs)) && ImageNames(pairs)
    requires AllCarried(pairs) && AllCarried(Swapped(pairs))
    ensures Passes(Passes(Text(lines, Olds(pairs)), pairs), Swapped(pairs)) == Text(lines, Olds(pairs))
  {
    UpgradesExactly(pairs);
    UpgradesExactly(Swapped(pairs));
    assert Olds(Swapped(pairs)) == News(pairs) && News(Swapped(pairs)) == Olds(pairs);
  }

  // ---------------------------------------------------------------- replaceVersions

  type EntryPairs = seq<(ManifestEntry, ManifestEntry)>

  /** The entries of the first n passes. */
  function FirstEntries(old_: VersionManifest, new_: VersionManifest, n: nat): EntryPairs
    requires n <= 9
  {
    if n == 0 then []
    else
      var o, e := old_.Entries()[n - 1], new_.Entries()[n - 1];
      FirstEntries(old_, new_, n - 1) + if o.Some? && e.Some? then [(o.value, e.value)] else []
  }

  function Images(entries: EntryPairs): Pairs {
    seq(|entries|, k requires 0 <= k < |entries| => (DockerImage(entries[k].0), DockerImage(entries[k].1)))
  }

  /** The first n passes dereference no missing entry. They leave tezosconnect out if the old manifest has none. */
  predicate ReplaceableUpTo(old_: VersionManifest, new_: VersionManifest, n: nat)
    requires n <= 9
  {
    forall k :: 0 <= k < n ==> Skipped(old_, k) || (old_.Entries()[k].Some? && new_.Entries()[k].Some?)
  }

  predicate Skipped(old_: VersionManifest, k: nat) {
    k == 3 && old_.tezosconnect.None?
  }

  /** One pass; a missing entry is a nil pointer that is dereferenced, which ends the program. */
  function AfterEntry(s: Option<string>, old_: Option<ManifestEntry>, new_: Option<ManifestEntry>): Option<string> {
    if s.None? || old_.None? || new_.None? then None
    else Some(ReplaceAll(s.value, DockerImage(old_.value), DockerImage(new_.value)))
  }

  function AfterEntries(old_: VersionManifest, new_: VersionManifest, document: string, n: nat): Option<string>
    requires n <= 9
  {
    if n == 0 then Some(document)
    else
      var before := AfterEntries(old_, new_, document, n - 1);
      if Skipped(old_, n - 1) then before else AfterEntry(before, old_.Entries()[n - 1], new_.Entries()[n - 1])
  }

  method ReplaceVersions(old_: VersionManifest, new_: VersionManifest, document: string) returns (r: Option<string>)
    ensures r == Replaced(old_, new_, document)
  {
    r := Some(document);
    for k := 0 to 9
      invariant r == AfterEntries(old_, new_, document, k)
    {
      if !(k == 3 && old_.tezosconnect.None?) {
        r := AfterEntry(r, old_.Entries()[k], new_.Entries()[k]);
      }
    }
    AfterEntriesExact(old_, new_, document, 9);
  }

  /** What becomes of the compose file; None if the program ends at a missing entry. */
  function Replaced(old_: VersionManifest, new_: VersionManifest, document: string): Option<string> {
    ReplacedUpTo(old_, new_, document, 9)
  }

  function ReplacedUpTo(old_: VersionManifest, new_: VersionManifest, document: string, n: nat): Option<string>
    requires n <= 9
  {
    if ReplaceableUpTo(old_, new_, n) then Some(Passes(document, Images(FirstEntries(old_, new_, n)))) else None
  }

  lemma {:induction false} AfterEntriesExact(old_: VersionManifest, new_: VersionManifest, document: string, n: nat)
    requires n <= 9
    ensures AfterEntries(old_, new_, document, n) == ReplacedUpTo(old_, new_, document, n)
  {
    if n == 0 {
      assert Images(FirstEntries(old_, new_, 0)) == [];
    } else {
      AfterEntriesExact(old_, new_, document, n - 1);
      OneEntryMore(old_, new_, document, n - 1);
    }
  }

  lemma OneEntryMore(old_: VersionManifest, new_: VersionManifest, document: string, k: nat)
    requires k < 9
    ensures var before := ReplacedUpTo(old_, new_, document, k);
            ReplacedUpTo(old_, new_, document, k + 1) ==
              if Skipped(old_, k) then before else AfterEntry(before, old_.Entries()[k], new_.Entries()[k])
  {
    var o, e, entries := old_.Entries()[k], new_.Entries()[k], FirstEntries(old_, new_, k);
    assert Skipped(old_, k) ==> o.None?;
    if o.Some? && e.Some? {
      OnePairMore(document, entries, o.value, e.value);
    } else {
      assert FirstEntries(old_, new_, k + 1) == entries;
    }
  }

  lemma OnePairMore(document: string, entries: EntryPairs, o: ManifestEntry, e: ManifestEntry)
    ensures Passes(document, Images(entries + [(o, e)])) ==
              ReplaceAll(Passes(document, Images(entries)), DockerImage(o), DockerImage(e))
  {
    assert Images(entries + [(o, e)]) == Images(entries) + [(DockerImage(o), DockerImage(e))];
    assert Images(entries + [(o, e)])[..|entries|] == Images(entries);
  }

  // ---------------------------------------------------------------- images named by digests

  predicate Unspaced(s: string) {
    '@' !in s && '\n' !in s && ' ' !in s
  }

  /** Entries of a release: the image and a digest of n digits. */
  predicate ByDigest(entry: ManifestEntry, n: nat) {
    n > 0 && |entry.sha| == n && Unspaced(entry.image) && Unspaced(entry.sha)
  }

  predicate EndsIn(s: string, t: string) {
    |t| <= |s| && s[|s| - |t|..] == t
  }

  lemma NotInBoth(c: char, a: string, b: string)
    requires c !in a && c !in b
    ensures c !in a + b
  {
  }

  lemma OnlyMark(a: string, b: string, j: nat)
    requires '@' !in a && '@' !in b && j < |a + "@" + b|
    ensures (a + "@" + b)[j] == '@' <==> j == |a|
  {
    if j < |a| {
      assert (a + "@" + b)[j] == a[j] && a[j] in a;
    } else if j > |a| {
      assert (a + "@" + b)[j] == b[j - |a| - 1] && b[j - |a| - 1] in b;
    }
  }

  lemma AroundMark(entry: ManifestEntry)
    requires entry.sha != ""
    ensures DockerImage(entry) == entry.image + "@" + ("sha256:" + entry.sha)
  {
    assert "@sha256:" == "@" + "sha256:";
    Regroup(entry.image + "@", "sha256:", entry.sha, "");
  }

  lemma OnlyAt(entry: ManifestEntry, n: nat, j: nat)
    requires ByDigest(entry, n) && j < |DockerImage(entry)|
    ensures DockerImage(entry)[j] == '@' <==> j == |entry.image|
  {
    AroundMark(entry);
    NotInBoth('@', "sha256:", entry.sha);
    OnlyMark(entry.image, "sha256:" + entry.sha, j);
  }

  lemma DigestName(entry: ManifestEntry, n: nat)
    requires ByDigest(entry, n)
    ensures IsImageName(DockerImage(entry))
  {
    NotInBoth(' ', entry.image, "@sha256:");
    NotInBoth(' ', entry.image + "@sha256:", entry.sha);
    NotInBoth('\n', entry.image, "@sha256:");
    NotInBoth('\n', entry.image + "@sha256:", entry.sha);
  }

  lemma DigestParts(entry: ManifestEntry, n: nat)
    requires ByDigest(entry, n)
    ensures var s, m := DockerImage(entry), |entry.image|;
            |s| == m + 8 + n && s[..m] == entry.image && s[m + 8..] == entry.sha && s[m] == '@'
  {
  }

  lemma DigestOccursAt(a: ManifestEntry, b: ManifestEntry, n: nat, j: nat)
    requires ByDigest(a, n) && ByDigest(b, n) && OccursAt(DockerImage(a), DockerImage(b), j)
    ensures j + |a.image| == |b.image| && a.sha == b.sha && b.image[j..] == a.image
  {
    var s, t, m := DockerImage(a), DockerImage(b), |a.image|;
    DigestParts(a, n);
    DigestParts(b, n);
    assert t[j + m] == t[j..j + |s|][m] == '@';
    OnlyAt(b, n, j + m);
    assert a.sha == s[m + 8..] == t[j..j + |s|][m + 8..] == t[|b.image| + 8..];
    assert a.image == t[j..j + |s|][..m] == t[..|b.image|][j..];
  }

  /** What is left of b's image when a's is taken off its end. */
  function Front(b: ManifestEntry, a: ManifestEntry): string
    requires EndsIn(b.image, a.image)
  {
    b.image[..|b.image| - |a.image|]
  }

  lemma FrontAndDigest(b: ManifestEntry, a: ManifestEntry, n: nat)
    requires ByDigest(a, n) && ByDigest(b, n) && a.sha == b.sha && EndsIn(b.image, a.image)
    ensures DockerImage(b) == Front(b, a) + DockerImage(a)
  {
    assert b.image == Front(b, a) + a.image;
    Regroup(Front(b, a), a.image, "@sha256:", a.sha);
  }

  /** One such image is part of another exactly if the digests are the same and the names end alike. */
  lemma DigestsOccurExactly(a: ManifestEntry, b: ManifestEntry, n: nat)
    requires ByDigest(a, n) && ByDigest(b, n)
    ensures Occurs(DockerImage(a), DockerImage(b)) <==> a.sha == b.sha && EndsIn(b.image, a.image)
  {
    if Occurs(DockerImage(a), DockerImage(b)) {
      var j: nat :| j <= |DockerImage(b)| && OccursAt(DockerImage(a), DockerImage(b), j);
      DigestOccursAt(a, b, n, j);
    }
    if a.sha == b.sha && EndsIn(b.image, a.image) {
      FrontAndDigest(b, a, n);
      assert OccursAt(DockerImage(a), DockerImage(b), |Front(b, a)|);
    }
  }

  /** A pass that finds its image at the end of b puts the new one, digest and all, behind what is left of b. */
  lemma PassOnDigest(b: ManifestEntry, a: ManifestEntry, c: ManifestEntry, n: nat)
    requires ByDigest(a, n) && ByDigest(b, n) && ByDigest(c, n) && a.sha == b.sha && EndsIn(b.image, a.image)
    ensures ByDigest(Joined(Front(b, a), c), n)
    ensures ReplaceAll(DockerImage(b), DockerImage(a), DockerImage(c)) == DockerImage(Joined(Front(b, a), c))
  {
    var p := Front(b, a);
    FrontAndDigest(b, a, n);
    forall j: nat | j < |p|
      ensures !OccursAt(DockerImage(a), DockerImage(b), j)
    {
      if OccursAt(DockerImage(a), DockerImage(b), j) { DigestOccursAt(a, b, n, j); }
    }
    CopiedBefore(p, DockerImage(a), DockerImage(a), DockerImage(c));
    WholeReplaced(DockerImage(a), DockerImage(c));
    Regroup(p, c.image, "@sha256:", c.sha);
  }

  function Joined(front: string, entry: ManifestEntry): ManifestEntry {
    entry.(image := front + entry.image)
  }

  predicate Digests(entries: EntryPairs, n: nat) {
    forall i :: 0 <= i < |entries| ==> ByDigest(entries[i].0, n) && ByDigest(entries[i].1, n)
  }

  predicate OldDigestsDiffer(entries: EntryPairs) {
    forall i, k :: 0 <= i < k < |entries| ==> entries[i].0.sha != entries[k].0.sha
  }

  /** No pass looks for what an earlier one has put in. */
  predicate NoneTakenUp(entries: EntryPairs) {
    forall k, i :: 0 <= k < i < |entries| ==> entries[i].0.sha != entries[k].1.sha
  }

  lemma DigestNames(entries: EntryPairs, n: nat)
    requires Digests(entries, n)
    ensures ImageNames(Images(entries))
  {
    forall i | 0 <= i < |entries|
      ensures IsImageName(DockerImage(entries[i].0)) && IsImageName(DockerImage(entries[i].1))
    {
      DigestName(entries[i].0, n);
      DigestName(entries[i].1, n);
    }
  }

  lemma DigestsUndisturbed(entries: EntryPairs, n: nat)
    requires Digests(entries, n) && OldDigestsDiffer(entries) && NoneTakenUp(entries)
    ensures Undisturbed(Images(entries))
  {
    var pairs := Images(entries);
    forall i, k | 0 <= i < |pairs| && 0 <= k < |pairs|
      ensures !Disturbs(pairs, i, k)
    {
      DigestsOccurExactly(entries[i].0, entries[k].0, n);
      DigestsOccurExactly(entries[i].0, entries[k].1, n);
    }
  }

  /** An upgrade between releases rewrites every file as intended. */
  lemma UpgradeByDigest(lines: seq<Line>, old_: VersionManifest, new_: VersionManifest, n: nat)
    requires ReplaceableUpTo(old_, new_, 9)
    requires var entries := FirstEntries(old_, new_, 9);
             && LinesValid(lines, |entries|) && Clean(lines, Images(entries))
             && Digests(entries, n) && OldDigestsDiffer(entries) && NoneTakenUp(entries)
    ensures var pairs := Images(FirstEntries(old_, new_, 9));
            Replaced(old_, new_, Text(lines, Olds(pairs))) == Some(Text(lines, News(pairs)))
  {
    var entries := FirstEntries(old_, new_, 9);
    var pairs := Images(entries);
    DigestNames(entries, n);
    DigestsUndisturbed(entries, n);
    StepByStepExactly(pairs);
    UpgradesExactly(pairs);
  }

  /** The new digest of an entry is no other entry's, neither old nor new. */
  predicate NewDigestsApart(entries: EntryPairs) {
    forall i, k :: 0 <= i < |entries| && 0 <= k < |entries| && i != k ==>
      entries[k].1.sha != entries[i].0.sha && entries[k].1.sha != entries[i].1.sha
  }

  /** Entry i takes over what belongs to the later entry k: the same digest under a name that ends in its own. */
  predicate TakesOver(entries: EntryPairs, i: nat, k: nat)
    requires i < k < |entries|
  {
    entries[i].0.sha == entries[k].0.sha && EndsIn(entries[k].0.image, entries[i].0.image)
  }

  predicate NoneTakesOver(entries: EntryPairs) {
    forall i, k :: 0 <= i < k < |entries| ==> !TakesOver(entries, i, k)
  }

  /** With new digests of their own every file comes out as intended exactly if no entry takes over a later one. */
  lemma DigestsExactly(entries: EntryPairs, n: nat)
    requires Digests(entries, n) && NewDigestsApart(entries)
    ensures UpgradesEveryFile(Images(entries)) <==> NoneTakesOver(entries)
  {
    var pairs := Images(entries);
    DigestNames(entries, n);
    UpgradesExactly(pairs);
    StepByStepExactly(pairs);
    if NoneTakesOver(entries) {
      forall i, k | 0 <= i < |pairs| && 0 <= k < |pairs|
        ensures !Disturbs(pairs, i, k)
      {
        NotDisturbed(entries, n, i, k);
      }
    } else {
      var i, k :| 0 <= i < k < |entries| && TakesOver(entries, i, k);
      TakenOver(entries, n, i, k);
    }
  }

  lemma NotDisturbed(entries: EntryPairs, n: nat, i: nat, k: nat)
    requires Digests(entries, n) && NewDigestsApart(entries) && i < |entries| && k < |entries|
    requires i < k ==> !TakesOver(entries, i, k)
    ensures !Disturbs(Images(entries), i, k)
  {
    DigestsOccurExactly(entries[i].0, entries[k].0, n);
    DigestsOccurExactly(entries[i].0, entries[k].1, n);
  }

  /** The first entry to take over entry k leaves its own new digest there, and no later pass looks for that one. */
  lemma {:induction false} TakenOver(entries: EntryPairs, n: nat, i: nat, k: nat)
    requires Digests(entries, n) && NewDigestsApart(entries) && i < k < |entries| && TakesOver(entries, i, k)
    ensures !AllCarried(Images(entries))
    decreases i
  {
    if h: nat :| h < i && TakesOver(entries, h, k) {
      TakenOver(entries, n, h, k);
    } else {
      var pairs, here := Images(entries), entries[k].0;
      DigestNames(entries, n);
      forall h | 0 <= h < i
        ensures !Disturbs(pairs, h, k)
      {
        NotDisturbed(entries, n, h, k);
      }
      UndisturbedUpTo(pairs, k, i);
      TakenOverFirst(entries, n, i, k);
    }
  }

  lemma TakenOverFirst(entries: EntryPairs, n: nat, i: nat, k: nat)
    requires Digests(entries, n) && NewDigestsApart(entries) && i < k < |entries| && TakesOver(entries, i, k)
    requires Passes(Images(entries)[k].0, Images(entries)[..i]) == Images(entries)[k].0
    ensures !Carried(Images(entries), k)
  {
    var pairs, here := Images(entries), entries[k].0;
    var there := Joined(Front(here, entries[i].0), entries[i].1);
    assert ByDigest(there, n) && Passes(pairs[k].0, pairs[..i + 1]) == DockerImage(there) by {
      PassesOneMore(pairs[k].0, pairs, i);
      PassOnDigest(here, entries[i].0, entries[i].1, n);
    }
    StaysThere(entries, n, pairs[k].0, there, i + 1, |pairs|);
    assert pairs[..|pairs|] == pairs;
    assert DockerImage(there) != DockerImage(entries[k].1) by {
      DigestEnd(there, n);
      DigestEnd(entries[k].1, n);
    }
  }

  lemma DigestEnd(entry: ManifestEntry, n: nat)
    requires ByDigest(entry, n)
    ensures var s := DockerImage(entry); |s| >= n && s[|s| - n..] == entry.sha
  {
  }

  /** A digest that no pass from m on looks for stays. */
  lemma {:induction false} StaysThere(entries: EntryPairs, n: nat, s: string, there: ManifestEntry, m: nat, l: nat)
    requires Digests(entries, n) && ByDigest(there, n) && m <= l <= |entries|
    requires forall i :: m <= i < l ==> entries[i].0.sha != there.sha
    requires Passes(s, Images(entries)[..m]) == DockerImage(there)
    ensures Passes(s, Images(entries)[..l]) == DockerImage(there)
  {
    if m < l {
      StaysThere(entries, n, s, there, m, l - 1);
      PassesOneMore(s, Images(entries), l - 1);
      DigestsOccurExactly(entries[l - 1].0, there, n);
      NothingToReplace(DockerImage(there), DockerImage(entries[l - 1].0), DockerImage(entries[l - 1].1));
    }
  }

  // ---------------------------------------------------------------- local images

  function LocalImage(image: string): ManifestEntry {
    ManifestEntry(image, true, "", "")
  }

  predicate EntryByDigest(entry: Option<ManifestEntry>, n: nat) {
    entry.Some? && ByDigest(entry.value, n)
  }

  /** A user's manifest: firefly by digest, so that its version can be told, but two connectors built locally. */
  predicate LocalConnectors(manifest: VersionManifest, n: nat) {
    && manifest.ethconnect == Some(LocalImage("connect"))
    && manifest.evmconnect == Some(LocalImage("evmconnect"))
    && (manifest.tezosconnect.None? || EntryByDigest(manifest.tezosconnect, n))
    && EntryByDigest(manifest.fireFly, n) && EntryByDigest(manifest.fabconnect, n) && EntryByDigest(manifest.dataExchange, n)
    && EntryByDigest(manifest.tokensERC1155, n) && EntryByDigest(manifest.tokensERC20ERC721, n) && EntryByDigest(manifest.signer, n)
  }

  predicate ReleaseEntries(manifest: VersionManifest, n: nat) {
    forall k :: 0 <= k < 9 ==> EntryByDigest(manifest.Entries()[k], n)
  }

  /** Ethconnect's new digest is nowhere else; its new name is not mistaken for either local image. */
  predicate EthconnectApart(old_: VersionManifest, ethconnect: ManifestEntry, evmconnect: ManifestEntry) {
    && ethconnect.sha != evmconnect.sha
    && (forall k :: 0 <= k < 9 && old_.Entries()[k].Some? ==> old_.Entries()[k].value.sha != ethconnect.sha)
    && 'v' !in DockerImage(ethconnect) && !("connect" <= DockerImage(ethconnect))
  }

  function ImageText(image: string): string {
    "image: " + image
  }

  lemma ImageTextPass(image: string, old_: string, new_: string)
    requires IsImageName(old_) && !Occurs(old_, "image: ")
    ensures ReplaceAll(ImageText(image), old_, new_) == ImageText(ReplaceAll(image, old_, new_))
  {
    forall j: nat | j < |"image: "|
      ensures !OccursAt(old_, "image: " + image, j)
    {
      NoStraddling("image: ", image, old_, j);
    }
    CopiedBefore("image: ", image, old_, new_);
  }

  lemma DigestNotInText(entry: ManifestEntry, n: nat, s: string)
    requires ByDigest(entry, n) && '@' !in s
    ensures !Occurs(DockerImage(entry), s)
  {
    DigestParts(entry, n);
    var m := |entry.image|;
    forall j: nat | j <= |s|
      ensures !OccursAt(DockerImage(entry), s, j)
    {
      if j + |DockerImage(entry)| <= |s| {
        assert s[j + m] in s && s[j..j + |DockerImage(entry)|][m] == s[j + m];
      }
    }
  }

  /** A pass for another digest leaves the image here, and so does one for a digest if there is none. */
  lemma OtherPass(image: string, o: ManifestEntry, e: ManifestEntry, n: nat)
    requires ByDigest(o, n) && !Occurs(DockerImage(o), image)
    ensures ReplaceAll(ImageText(image), DockerImage(o), DockerImage(e)) == ImageText(image)
  {
    DigestName(o, n);
    DigestNotInText(o, n, "image: ");
    ImageTextPass(image, DockerImage(o), DockerImage(e));
    NothingToReplace(image, DockerImage(o), DockerImage(e));
  }

  predicate PassesBy(old_: VersionManifest, new_: VersionManifest, n: nat, image: string, k: nat)
    requires k < 9
  {
    || Skipped(old_, k)
    || (EntryByDigest(old_.Entries()[k], n) && new_.Entries()[k].Some? && !Occurs(DockerImage(old_.Entries()[k].value), image))
  }

  lemma {:induction false} OthersPass(old_: VersionManifest, new_: VersionManifest, n: nat, image: string, document: string, m: nat, k: nat)
    requires m <= k <= 9 && AfterEntries(old_, new_, document, m) == Some(ImageText(image))
    requires forall i :: m <= i < k ==> PassesBy(old_, new_, n, image, i)
    ensures AfterEntries(old_, new_, document, k) == Some(ImageText(image))
  {
    if k > m {
      OthersPass(old_, new_, n, image, document, m, k - 1);
      assert PassesBy(old_, new_, n, image, k - 1);
      if !Skipped(old_, k - 1) {
        OtherPass(image, old_.Entries()[k - 1].value, new_.Entries()[k - 1].value, n);
      }
    }
  }

  lemma LocalAt(manifest: VersionManifest, n: nat, k: nat)
    requires LocalConnectors(manifest, n) && k < 9 && k != 1 && k != 2
    ensures Skipped(manifest, k) || EntryByDigest(manifest.Entries()[k], n)
  {
  }

  lemma OtherDigestPassesBy(old_: VersionManifest, new_: VersionManifest, n: nat, there: ManifestEntry, k: nat)
    requires LocalConnectors(old_, n) && ReleaseEntries(new_, n) && ByDigest(there, n) && 3 <= k < 9
    requires old_.Entries()[k].Some? ==> old_.Entries()[k].value.sha != there.sha
    ensures PassesBy(old_, new_, n, DockerImage(there), k)
  {
    LocalAt(old_, n, k);
    assert EntryByDigest(new_.Entries()[k], n);
    var entry := old_.Entries()[k];
    if entry.Some? { DigestsOccurExactly(entry.value, there, n); }
  }

  lemma LocalPasses(old_: VersionManifest, new_: VersionManifest, n: nat, ethconnect: ManifestEntry, evmconnect: ManifestEntry)
    requires LocalConnectors(old_, n) && ReleaseEntries(new_, n)
    requires new_.ethconnect == Some(ethconnect) && new_.evmconnect == Some(evmconnect)
    requires 'v' !in DockerImage(ethconnect) && !("connect" <= DockerImage(ethconnect))
    ensures AfterEntries(old_, new_, ImageText("evmconnect"), 3) == Some(ImageText("evm" + DockerImage(ethconnect)))
  {
    AfterFireFly(old_, new_, n);
    AfterEthconnect(old_, new_, ImageText("evmconnect"), ethconnect);
    AfterEvmconnect(old_, new_, ImageText("evmconnect"), DockerImage(ethconnect), evmconnect);
  }

  lemma JoinedByDigest(front: string, entry: ManifestEntry, n: nat)
    requires ByDigest(entry, n) && Unspaced(front)
    ensures ByDigest(Joined(front, entry), n) && DockerImage(Joined(front, entry)) == front + DockerImage(entry)
  {
    Regroup(front, entry.image, "@sha256:", entry.sha);
  }

  /** Ethconnect's local image is part of evmconnect's, whose name its pass destroys. */
  lemma LocalImagesInterfere(old_: VersionManifest, new_: VersionManifest, n: nat)
    requires LocalConnectors(old_, n) && ReleaseEntries(new_, n)
    requires EntryByDigest(new_.ethconnect, n) && EntryByDigest(new_.evmconnect, n)
    requires EthconnectApart(old_, new_.ethconnect.value, new_.evmconnect.value)
    ensures Replaced(old_, new_, ImageText("evmconnect")) == Some(ImageText("evm" + DockerImage(new_.ethconnect.value)))
    ensures ImageText("evm" + DockerImage(new_.ethconnect.value)) != ImageText(DockerImage(new_.evmconnect.value))
  {
    var document, there := ImageText("evmconnect"), Joined("evm", new_.ethconnect.value);
    LocalPasses(old_, new_, n, new_.ethconnect.value, new_.evmconnect.value);
    JoinedByDigest("evm", new_.ethconnect.value, n);
    forall k | 3 <= k < 9
      ensures PassesBy(old_, new_, n, DockerImage(there), k)
    {
      OtherDigestPassesBy(old_, new_, n, there, k);
    }
    assert AfterEntries(old_, new_, document, 9) == Some(ImageText(DockerImage(there))) by {
      OthersPass(old_, new_, n, DockerImage(there), document, 3, 9);
    }
    AfterEntriesExact(old_, new_, document, 9);
    LocalResultDiffers(there, new_.evmconnect.value, n);
  }

  lemma LocalResultDiffers(a: ManifestEntry, b: ManifestEntry, n: nat)
    requires ByDigest(a, n) && ByDigest(b, n) && a.sha != b.sha
    ensures ImageText(DockerImage(a)) != ImageText(DockerImage(b))
  {
    DigestEnd(a, n);
    DigestEnd(b, n);
    assert ImageText(DockerImage(a))[7..] == DockerImage(a) && ImageText(DockerImage(b))[7..] == DockerImage(b);
  }

  lemma AfterFireFly(old_: VersionManifest, new_: VersionManifest, n: nat)
    requires LocalConnectors(old_, n) && ReleaseEntries(new_, n)
    ensures AfterEntries(old_, new_, ImageText("evmconnect"), 1) == Some(ImageText("evmconnect"))
  {
    var document := ImageText("evmconnect");
    LocalAt(old_, n, 0);
    assert EntryByDigest(new_.Entries()[0], n);
    assert !Occurs(DockerImage(old_.fireFly.value), "evmconnect") by { DigestNotInText(old_.fireFly.value, n, "evmconnect"); }
    assert AfterEntries(old_, new_, document, 0) == Some(document);
    assert PassesBy(old_, new_, n, "evmconnect", 0);
    OthersPass(old_, new_, n, "evmconnect", document, 0, 1);
  }

  lemma AfterEthconnect(old_: VersionManifest, new_: VersionManifest, document: string, ethconnect: ManifestEntry)
    requires old_.ethconnect == Some(LocalImage("connect")) && new_.ethconnect == Some(ethconnect)
    requires AfterEntries(old_, new_, document, 1) == Some(ImageText("evmconnect"))
    ensures AfterEntries(old_, new_, document, 2) == Some(ImageText("evm" + DockerImage(ethconnect)))
  {
    OneMorePass(old_, new_, document, 1, LocalImage("connect"), ethconnect);
    ConnectPass(DockerImage(ethconnect));
  }

  lemma AfterEvmconnect(old_: VersionManifest, new_: VersionManifest, document: string, ethconnect: string, evmconnect: ManifestEntry)
    requires old_.evmconnect == Some(LocalImage("evmconnect")) && new_.evmconnect == Some(evmconnect)
    requires 'v' !in ethconnect && !("connect" <= ethconnect)
    requires AfterEntries(old_, new_, document, 2) == Some(ImageText("evm" + ethconnect))
    ensures AfterEntries(old_, new_, document, 3) == Some(ImageText("evm" + ethconnect))
  {
    OneMorePass(old_, new_, document, 2, LocalImage("evmconnect"), evmconnect);
    EvmconnectPass(ethconnect, DockerImage(evmconnect));
  }

  lemma OneMorePass(old_: VersionManifest, new_: VersionManifest, document: string, k: nat, o: ManifestEntry, e: ManifestEntry)
    requires k < 9 && old_.Entries()[k] == Some(o) && new_.Entries()[k] == Some(e) && AfterEntries(old_, new_, document, k).Some?
    ensures AfterEntries(old_, new_, document, k + 1) ==
              Some(ReplaceAll(AfterEntries(old_, new_, document, k).value, DockerImage(o), DockerImage(e)))
  {
    assert !Skipped(old_, k);
  }

  lemma Evmconnect()
    ensures "evmconnect" == "evm" + "connect"
  {
    assert "evmconnect"[..3] == "evm";
    assert "evmconnect"[3..] == "connect";
  }

  lemma ConnectPass(e: string)
    ensures ReplaceAll(ImageText("evmconnect"), "connect", e) == ImageText("evm" + e)
  {
    NotThere("connect", "image: ", 'c');
    ImageTextPass("evmconnect", "connect", e);
    Evmconnect();
    ConnectWithin(e);
  }

  lemma ConnectWithin(e: string)
    ensures ReplaceAll("evm" + "connect", "connect", e) == "evm" + e
  {
    forall j: nat | j < |"evm"|
      ensures !OccursAt("connect", "evm" + "connect", j)
    {
      var s := "evm" + "connect";
      assert s[j] != 'c';
      if j + 7 <= |s| { assert s[j..j + 7][0] == s[j]; }
    }
    CopiedBefore("evm", "connect", "connect", e);
    WholeReplaced("connect", e);
  }

  lemma EvmconnectPass(e: string, new_: string)
    requires 'v' !in e && !("connect" <= e)
    ensures ReplaceAll(ImageText("evm" + e), "evmconnect", new_) == ImageText("evm" + e)
  {
    NotThere("evmconnect", "image: ", 'v');
    ImageTextPass("evm" + e, "evmconnect", new_);
    var s := "evm" + e;
    forall j: nat | j <= |s|
      ensures !OccursAt("evmconnect", s, j)
    {
      if j + 10 <= |s| {
        var t := s[j..j + 10];
        assert t[1] == s[j + 1] && t[3] == s[j + 3];
        if j == 0 {
          assert t[3..] == e[..7];
        } else if j > 1 {
          assert s[j + 1] == e[j - 2] && e[j - 2] in e;
        }
      }
    }
    NothingToReplace(s, "evmconnect", new_);
  }

  lemma NotThere(old_: string, s: string, c: char)
    requires c in old_ && c !in s
    ensures !Occurs(old_, s)
  {
    forall j: nat | j <= |s|
      ensures !OccursAt(old_, s, j)
    {
      if j + |old_| <= |s| {
        var m :| 0 <= m < |old_| && old_[m] == c;
        assert s[j..j + |old_|][m] == s[j + m] && s[j + m] in s;
      }
    }
  }

  function Pinned(image: string, digit: char): (r: ManifestEntry)
    requires Unspaced(image) && Unspaced([digit])
    ensures ByDigest(r, 64) && r.sha[0] == digit
  {
    ManifestEntry(image, false, "", seq(64, _ => digit))
  }

  const FIREFLY := "ghcr.io/hyperledger/firefly"

  function Component(name: string, digit: char): Option<ManifestEntry>
    requires Unspaced(name) && Unspaced([digit])
  {
    Some(Pinned(FIREFLY + name, digit))
  }

  function ConnectorsBuiltLocally(): VersionManifest {
    VersionManifest(Component("", '0'), Some(LocalImage("connect")), Some(LocalImage("evmconnect")), None,
      Component("-fabconnect", '1'), Component("-dataexchange-https", '2'), Component("-tokens-erc1155", '3'),
      Component("-tokens-erc20-erc721", '4'), Component("-signer", '5'))
  }

  function NextRelease(): VersionManifest {
    VersionManifest(Component("", '6'), Component("-ethconnect", '7'), Component("-evmconnect", '8'), Component("-tezosconnect", '9'),
      Component("-fabconnect", 'a'), Component("-dataexchange-https", 'b'), Component("-tokens-erc1155", 'c'),
      Component("-tokens-erc20-erc721", 'd'), Component("-signer", 'e'))
  }

  lemma BothByDigest()
    ensures LocalConnectors(ConnectorsBuiltLocally(), 64) && ReleaseEntries(NextRelease(), 64)
  {
  }

  lemma EthconnectName()
    ensures var image := DockerImage(Component("-ethconnect", '7').value);
            'v' !in image && !("connect" <= image)
  {
    var e := Component("-ethconnect", '7').value;
    NotInBoth('v', FIREFLY, "-ethconnect");
    NotInBoth('v', e.image, "@sha256:");
    NotInBoth('v', e.image + "@sha256:", e.sha);
    assert DockerImage(e)[0] == 'g';
  }

  lemma DigestsDiffer()
    ensures EthconnectApart(ConnectorsBuiltLocally(), Component("-ethconnect", '7').value, Component("-evmconnect", '8').value)
  {
    EthconnectName();
    forall k | 0 <= k < 9 && ConnectorsBuiltLocally().Entries()[k].Some?
      ensures ConnectorsBuiltLocally().Entries()[k].value.sha != Component("-ethconnect", '7').value.sha
    {
      var sha := ConnectorsBuiltLocally().Entries()[k].value.sha;
      assert sha == "" || sha[0] != '7';
    }
  }

  /** Manifests of this kind: the text of evmconnect's service comes out with the wrong image. */
  lemma InterferenceReached()
    ensures Replaced(ConnectorsBuiltLocally(), NextRelease(), ImageText("evmconnect")).Some?
    ensures Replaced(ConnectorsBuiltLocally(), NextRelease(), ImageText("evmconnect")).value != ImageText(DockerImage(Component("-evmconnect", '8').value))
  {
    BothByDigest();
    DigestsDiffer();
    LocalImagesInterfere(ConnectorsBuiltLocally(), NextRelease(), 64);
  }
}
