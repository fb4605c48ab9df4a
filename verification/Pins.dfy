/** The pin classifier: how a `uses:` reference is pinned, and what it names. */
module Pins {
  import opened Common
  import opened Strings

  datatype PinState = Unpinned | BranchPinned | TagPinned | ShaPinned | Immutable | Local | Docker | UnknownRef

  datatype UsesRef = UsesRef(raw: string, owner: Option<string>, repo: Option<string>, subpath: Option<string>,
                             ref: Option<string>, pinState: PinState)

  /** str.partition: what precedes the first separator, and what follows it if there is one. */
  function Cut(s: string, sep: char): (string, Option<string>) {
    if s == "" then ("", None)
    else if s[0] == sep then ("", Some(s[1..]))
    else var rest := Cut(s[1..], sep); ([s[0]] + rest.0, rest.1)
  }

  /** `x or None` */
  function NoneIfEmpty(s: string): Option<string> {
    if s == "" then None else Some(s)
  }

  /** owner/repo/sub/path, cut at the first two slashes. */
  function SplitActionName(name: string): (Option<string>, Option<string>, Option<string>) {
    match Cut(name, '/')
    case (_, None) => (None, None, NoneIfEmpty(name))
    case (owner, Some(rest)) =>
      match Cut(rest, '/')
      case (repo, None) => (Some(owner), Some(repo), None)
      case (repo, Some(subpath)) => (Some(owner), Some(repo), NoneIfEmpty(subpath))
  }

  // ---------------------------------------------------------------------------------------
  // Refs
  // ---------------------------------------------------------------------------------------

  predicate IsHex(c: char) { '0' <= c <= '9' || 'a' <= c <= 'f' }

  /** A full commit SHA: 40 or 64 lowercase hex digits. */
  predicate IsSha(s: string) {
    (|s| == 40 || |s| == 64) && forall c :: c in s ==> IsHex(c)
  }

  predicate IsNumber(s: string) {
    s != "" && forall c :: c in s ==> '0' <= c <= '9'
  }

  /** Up to `more` further dotted numbers. */
  predicate IsDotted(s: string, more: nat)
    decreases more
  {
    var parts := Cut(s, '.');
    IsNumber(parts.0) && (parts.1.None? || (more > 0 && IsDotted(parts.1.value, more - 1)))
  }

  predicate IsVersionTag(s: string) {
    IsDotted(if s != "" && s[0] == 'v' then s[1..] else s, 2)
  }

  /** A regular expression's `$` also matches before a final newline. */
  function BeforeFinalNewline(s: string): string {
    if s != "" && s[|s| - 1] == '\n' then s[..|s| - 1] else s
  }

  function ClassifyRef(ref: string): PinState {
    if IsSha(ref) || IsSha(BeforeFinalNewline(ref)) then ShaPinned
    else if IsVersionTag(ref) || IsVersionTag(BeforeFinalNewline(ref)) then TagPinned
    else if ref in {"main", "master", "develop", "dev", "trunk"} then BranchPinned
    else UnknownRef
  }

  function RefKey(owner: string, repo: string, ref: string): string {
    owner + "/" + repo + "@" + ref
  }

  predicate Truthy(x: Option<string>) {
    x.Some? && x.value != ""
  }

  function Classify(uses: string, immutable: set<string> := {}): UsesRef {
    var raw := Strip(uses);
    if "./" <= raw || "../" <= raw then UsesRef(raw, None, None, Some(raw), None, Local)
    else if "docker://" <= raw then UsesRef(raw, None, None, Some(raw), None, Docker)
    else
      var cut := Cut(raw, '@');
      var name := SplitActionName(cut.0);
      if !Truthy(cut.1) then UsesRef(raw, name.0, name.1, name.2, None, Unpinned)
      else
        var ref := cut.1.value;
        var state := ClassifyRef(ref);
        UsesRef(raw, name.0, name.1, name.2, Some(ref),
                if state == TagPinned && Truthy(name.0) && Truthy(name.1)
                   && RefKey(name.0.value, name.1.value, ref) in immutable
                then Immutable else state)
  }

  // ---------------------------------------------------------------------------------------
  // Printing a reference and reading it back
  // ---------------------------------------------------------------------------------------

  /** owner/repo[/subpath]@ref */
  function Print(owner: string, repo: string, subpath: Option<string>, ref: string): string {
    owner + "/" + repo + (if Truthy(subpath) then "/" + subpath.value else "") + "@" + ref
  }

  lemma {:induction false} CutIsPartition(s: string, sep: char)
    ensures sep !in Cut(s, sep).0
    ensures Cut(s, sep).1.None? ==> s == Cut(s, sep).0
    ensures Cut(s, sep).1.Some? ==> s == Cut(s, sep).0 + [sep] + Cut(s, sep).1.value
  {
    if s != "" && s[0] != sep {
      CutIsPartition(s[1..], sep);
    }
  }

  lemma {:induction false} CutFinds(a: string, sep: char, b: string)
    requires sep !in a
    ensures Cut(a + [sep] + b, sep) == (a, Some(b))
  {
    if a == "" {
      assert (a + [sep] + b)[1..] == b;
    } else {
      assert (a + [sep] + b)[1..] == a[1..] + [sep] + b;
      CutFinds(a[1..], sep, b);
      assert a == [a[0]] + a[1..];
    }
  }

  lemma {:induction false} CutMisses(a: string, sep: char)
    requires sep !in a
    ensures Cut(a, sep) == (a, None)
  {
    if a != "" {
      CutMisses(a[1..], sep);
      assert a == [a[0]] + a[1..];
    }
  }

  /** What a classified marketplace reference looks like. */
  ghost predicate IsActionName(owner: string, repo: string, subpath: Option<string>) {
    && owner != "" && repo != "" && (subpath.Some? ==> subpath.value != "")
    && '/' !in owner && '/' !in repo
    && '@' !in owner && '@' !in repo && (subpath.Some? ==> '@' !in subpath.value)
    && !IsSpace(owner[0]) && owner != "." && owner != ".."
  }

  /** A name with an owner and a repository splits into parts that hold neither separator. */
  lemma SplitName(name: string)
    requires '@' !in name && Truthy(SplitActionName(name).0) && Truthy(SplitActionName(name).1)
    ensures var n := SplitActionName(name);
      && '/' !in n.0.value && '/' !in n.1.value && '@' !in n.0.value && '@' !in n.1.value
      && (n.2.Some? ==> n.2.value != "" && '@' !in n.2.value)
      && n.0.value + "/" <= name
  {
    hide Cut;
    CutIsPartition(name, '/');
    var rest := Cut(name, '/').1.value;
    CutIsPartition(rest, '/');
    assert forall c :: c in rest ==> c in name;
  }

  lemma ClassifiedParts(uses: string)
    requires Truthy(Classify(uses).owner) && Truthy(Classify(uses).repo)
    ensures var raw := Strip(uses);
      var u := Classify(uses);
      && !("./" <= raw) && !("../" <= raw)
      && SplitActionName(Cut(raw, '@').0) == (u.owner, u.repo, u.subpath)
  {
    hide Cut, Strip, SplitActionName, ClassifyRef;
  }

  /** A reference with an owner and a repository splits into parts that print back. */
  lemma ClassifiedName(uses: string)
    requires Truthy(Classify(uses).owner) && Truthy(Classify(uses).repo)
    ensures var u := Classify(uses); IsActionName(u.owner.value, u.repo.value, u.subpath)
  {
    hide Cut, Strip, SplitActionName, Classify, IsSpace;
    var raw := Strip(uses);
    var owner := Classify(uses).owner.value;
    StripStrips(uses);
    CutIsPartition(raw, '@');
    ClassifiedParts(uses);
    SplitName(Cut(raw, '@').0);
    assert owner + "/" <= raw;
    assert owner[0] == raw[0];
    assert owner == "." ==> "./" <= raw;
    assert owner == ".." ==> "../" <= raw;
  }

  /** An owner, a slash and something that is not a slash start neither a local path nor a Docker image. */
  lemma IsMarketplace(owner: string, rest: string)
    requires owner != "" && '/' !in owner && owner != "." && owner != ".."
    requires rest != "" && rest[0] != '/'
    ensures !("./" <= owner + "/" + rest) && !("../" <= owner + "/" + rest) && !("docker://" <= owner + "/" + rest)
  {
    var s := owner + "/" + rest;
    assert s[|owner|] == '/' && s[|owner| + 1] == rest[0];
    assert forall i :: 0 <= i < |owner| ==> s[i] == owner[i] && s[i] != '/';
    var here, up, docker := "./", "../", "docker://";
    assert here[0] == '.' && here[1] == '/';
    assert up[0] == '.' && up[1] == '.' && up[2] == '/';
    assert docker[7] == '/' && docker[8] == '/' && forall i :: 0 <= i < 7 ==> docker[i] != '/';
    assert here <= s ==> |owner| == 1;
    assert up <= s ==> |owner| == 2;
    assert docker <= s ==> |owner| == 7;
  }

  /** The printed name splits back into its parts. */
  lemma PrintedName(owner: string, repo: string, subpath: Option<string>, ref: string)
    requires IsActionName(owner, repo, subpath)
    ensures var s := Print(owner, repo, subpath, ref);
      && !("./" <= s) && !("../" <= s) && !("docker://" <= s)
      && s != "" && !IsSpace(s[0])
      && Cut(s, '@').1 == Some(ref)
      && SplitActionName(Cut(s, '@').0) == (Some(owner), Some(repo), subpath)
  {
    hide Cut, IsSpace;
    var tail := if subpath.Some? then "/" + subpath.value else "";
    var name := owner + "/" + (repo + tail);
    var s := Print(owner, repo, subpath, ref);
    assert s == name + "@" + ref && s == owner + "/" + (repo + tail + "@" + ref);
    IsMarketplace(owner, repo + tail + "@" + ref);
    CutFinds(name, '@', ref);
    CutFinds(owner, '/', repo + tail);
    if subpath.Some? {
      assert repo + tail == repo + "/" + subpath.value;
      CutFinds(repo, '/', subpath.value);
    } else {
      assert repo + tail == repo;
      CutMisses(repo, '/');
    }
  }

  // ---------------------------------------------------------------------------------------
  // What the text of a ref says
  // ---------------------------------------------------------------------------------------

  const HEX := "0123456789abcdef"
  const DIGITS := "0123456789"
  const BRANCHES := ["main", "master", "develop", "dev", "trunk"]

  ghost predicate IsOver(s: string, alphabet: string) {
    forall c :: c in s ==> c in alphabet
  }

  /** A full commit SHA, perhaps with a newline after it. */
  ghost predicate IsShaText(ref: string) {
    exists sha :: (|sha| == 40 || |sha| == 64) && IsOver(sha, HEX) && (ref == sha || ref == sha + "\n")
  }

  function Dotted(numbers: seq<string>): string
    requires numbers != []
  {
    if |numbers| == 1 then numbers[0] else numbers[0] + "." + Dotted(numbers[1..])
  }

  ghost predicate AreNumbers(numbers: seq<string>, most: nat) {
    1 <= |numbers| <= most && forall n :: n in numbers ==> n != "" && IsOver(n, DIGITS)
  }

  ghost predicate IsVersion(s: string) {
    exists numbers :: AreNumbers(numbers, 3) && (s == Dotted(numbers) || s == "v" + Dotted(numbers))
  }

  /** Up to three dotted numbers, perhaps with a v before and a newline after them. */
  ghost predicate IsVersionText(ref: string) {
    exists s :: IsVersion(s) && (ref == s || ref == s + "\n")
  }

  /** A ref that can move: a version tag or the usual name of a branch. */
  ghost predicate IsMovingText(ref: string) {
    (IsVersionText(ref) && !IsShaText(ref)) || ref in BRANCHES
  }

  lemma HexIff(c: char)
    ensures IsHex(c) <==> c in HEX
    ensures '0' <= c <= '9' <==> c in DIGITS
  {
    if IsHex(c) {
      if c <= '9' {
        assert HEX[c as int - '0' as int] == c && DIGITS[c as int - '0' as int] == c;
      } else {
        assert HEX[c as int - 'a' as int + 10] == c;
      }
    }
  }

  lemma NumberIff(s: string)
    ensures IsNumber(s) <==> s != "" && IsOver(s, DIGITS)
  {
    forall c
      ensures '0' <= c <= '9' <==> c in DIGITS
    {
      HexIff(c);
    }
  }

  lemma NoDot(n: string)
    requires IsOver(n, DIGITS)
    ensures '.' !in n
  {
    HexIff('.');
  }

  lemma {:induction false} DottedIff(s: string, more: nat)
    ensures IsDotted(s, more) <==> exists numbers :: AreNumbers(numbers, more + 1) && s == Dotted(numbers)
    decreases more
  {
    hide IsNumber;
    var parts := Cut(s, '.');
    CutIsPartition(s, '.');
    NumberIff(parts.0);
    if IsDotted(s, more) {
      if parts.1.None? {
        assert AreNumbers([parts.0], more + 1) && Dotted([parts.0]) == s;
      } else {
        DottedIff(parts.1.value, more - 1);
        var rest :| AreNumbers(rest, more) && parts.1.value == Dotted(rest);
        var numbers := [parts.0] + rest;
        assert numbers[1..] == rest;
        assert AreNumbers(numbers, more + 1) && s == Dotted(numbers);
      }
    }
    if numbers :| AreNumbers(numbers, more + 1) && s == Dotted(numbers) {
      DottedCuts(numbers);
      NumberIff(numbers[0]);
      assert numbers[0] in numbers;
      if |numbers| > 1 {
        var rest := numbers[1..];
        assert forall n :: n in rest ==> n in numbers;
        assert AreNumbers(rest, more) && parts.1.value == Dotted(rest);
        DottedIff(parts.1.value, more - 1);
      }
    }
  }

  lemma DottedCuts(numbers: seq<string>)
    requires numbers != [] && forall n :: n in numbers ==> IsOver(n, DIGITS)
    ensures Cut(Dotted(numbers), '.') ==
      (numbers[0], if |numbers| == 1 then None else Some(Dotted(numbers[1..])))
  {
    NoDot(numbers[0]);
    if |numbers| == 1 {
      CutMisses(numbers[0], '.');
    } else {
      CutFinds(numbers[0], '.', Dotted(numbers[1..]));
    }
  }

  lemma VersionTagIff(s: string)
    ensures IsVersionTag(s) <==> IsVersion(s)
  {
    var digits := if s != "" && s[0] == 'v' then s[1..] else s;
    DottedIff(digits, 2);
    if IsVersionTag(s) {
      var numbers :| AreNumbers(numbers, 3) && digits == Dotted(numbers);
      assert s == Dotted(numbers) || s == "v" + Dotted(numbers);
    }
    if numbers :| AreNumbers(numbers, 3) && (s == Dotted(numbers) || s == "v" + Dotted(numbers)) {
      StartsWithDigit(numbers);
      assert digits == Dotted(numbers);
    }
  }

  lemma StartsWithDigit(numbers: seq<string>)
    requires AreNumbers(numbers, 3)
    ensures Dotted(numbers) != "" && Dotted(numbers)[0] != 'v'
  {
    assert numbers[0] in numbers && numbers[0][0] in numbers[0];
    HexIff('v');
    assert Dotted(numbers)[0] == numbers[0][0];
  }

  lemma ShaIff(s: string)
    ensures IsSha(s) <==> (|s| == 40 || |s| == 64) && IsOver(s, HEX)
  {
    forall c
      ensures IsHex(c) <==> c in HEX
    {
      HexIff(c);
    }
  }

  lemma ShaTextIff(ref: string)
    ensures IsSha(ref) || IsSha(BeforeFinalNewline(ref)) <==> IsShaText(ref)
  {
    hide IsSha, IsOver;
    ShaIff(ref);
    ShaIff(BeforeFinalNewline(ref));
    if IsSha(BeforeFinalNewline(ref)) {
      assert ref == BeforeFinalNewline(ref) || ref == BeforeFinalNewline(ref) + "\n";
    }
    if sha :| (|sha| == 40 || |sha| == 64) && IsOver(sha, HEX) && ref == sha + "\n" {
      assert BeforeFinalNewline(ref) == sha;
    }
  }

  lemma VersionTextIff(ref: string)
    ensures IsVersionTag(ref) || IsVersionTag(BeforeFinalNewline(ref)) <==> IsVersionText(ref)
  {
    hide IsVersionTag, IsVersion;
    VersionTagIff(ref);
    VersionTagIff(BeforeFinalNewline(ref));
    if IsVersionTag(BeforeFinalNewline(ref)) {
      assert ref == BeforeFinalNewline(ref) || ref == BeforeFinalNewline(ref) + "\n";
    }
    if s :| IsVersion(s) && ref == s + "\n" {
      assert BeforeFinalNewline(ref) == s;
    }
  }

  /** What the classifier makes of a ref, on its text. */
  lemma ClassifyRefIff(ref: string)
    ensures ClassifyRef(ref) == ShaPinned <==> IsShaText(ref)
    ensures ClassifyRef(ref) == TagPinned <==> IsVersionText(ref) && !IsShaText(ref)
    ensures ClassifyRef(ref) == BranchPinned <==> ref in BRANCHES
    ensures ClassifyRef(ref) == UnknownRef <==> !IsShaText(ref) && !IsVersionText(ref) && ref !in BRANCHES
  {
    hide IsSha, IsVersionTag, IsShaText, IsVersionText, BeforeFinalNewline;
    ShaTextIff(ref);
    VersionTextIff(ref);
    if ref in BRANCHES {
      BranchIsNoVersion(ref);
    }
  }

  lemma BranchIsNoVersion(ref: string)
    requires ref in BRANCHES
    ensures !IsShaText(ref) && !IsVersionText(ref)
  {
    hide IsShaText, IsVersionText, BRANCHES, IsDotted;
    BranchName(ref);
    ShaTextIff(ref);
    VersionTextIff(ref);
    assert BeforeFinalNewline(ref) == ref;
    NotDigit(ref);
  }

  lemma BranchName(ref: string)
    requires ref in BRANCHES
    ensures 0 < |ref| < 40 && 'a' <= ref[0] < 'v' && ref[|ref| - 1] != '\n'
  {
  }

  lemma NotDigit(s: string)
    requires s != "" && 'a' <= s[0] <= 'z'
    ensures !IsDotted(s, 2)
  {
    CutIsPartition(s, '.');
    var first := Cut(s, '.').0;
    if first != "" {
      assert first[0] == s[0] && first[0] in first;
    }
  }

  // ---------------------------------------------------------------------------------------
  // What the text of a reference says
  // ---------------------------------------------------------------------------------------

  /** What a separator and an optional part after it look like; a separator alone counts as no part. */
  ghost predicate IsPart(text: string, sep: char, part: Option<string>) {
    match part
    case None => text == "" || text == [sep]
    case Some(x) => x != "" && text == [sep] + x
  }

  /** The reference is owner/repo[/subpath][@ref], blanks around it aside, and not a path of the repository itself. */
  ghost predicate ReadsAs(uses: string, owner: string, repo: string, subpath: Option<string>, ref: Option<string>) {
    && owner !in {"", ".", ".."} && repo != ""
    && '/' !in owner && '@' !in owner && '/' !in repo && '@' !in repo
    && (subpath.Some? ==> '@' !in subpath.value)
    && exists tail, end ::
         IsPart(tail, '/', subpath) && IsPart(end, '@', ref) && Strip(uses) == owner + "/" + repo + tail + end
  }

  /** A local path or a Docker image. */
  predicate IsElsewhere(raw: string) {
    "./" <= raw || "../" <= raw || "docker://" <= raw
  }

  lemma PartIff(text: string, sep: char, part: Option<string>, before: string)
    requires sep !in before && IsPart(text, sep, part)
    ensures Cut(before + text, sep).0 == before
    ensures var cut := Cut(before + text, sep).1; if Truthy(cut) then part == cut else part == None
    ensures text == "" || text[0] == sep
  {
    if text == "" {
      assert before + text == before;
      CutMisses(before, sep);
    } else {
      assert text[0] == sep && before + text == before + [sep] + text[1..];
      CutFinds(before, sep, text[1..]);
    }
  }

  lemma CutGivesPart(s: string, sep: char) returns (text: string)
    ensures s == Cut(s, sep).0 + text
    ensures IsPart(text, sep, if Truthy(Cut(s, sep).1) then Cut(s, sep).1 else None)
  {
    CutIsPartition(s, sep);
    text := if Cut(s, sep).1.Some? then [sep] + Cut(s, sep).1.value else "";
  }

  /** What a marketplace reference splits into. */
  lemma MarketParts(uses: string, immutable: set<string>)
    requires !IsElsewhere(Strip(uses))
    ensures var u := Classify(uses, immutable);
      var cut := Cut(Strip(uses), '@');
      && (u.owner, u.repo, u.subpath) == SplitActionName(cut.0)
      && u.ref == if Truthy(cut.1) then cut.1 else None
  {
    hide Cut, Strip, SplitActionName, ClassifyRef;
  }

  lemma ElsewhereParts(uses: string, immutable: set<string>)
    requires IsElsewhere(Strip(uses))
    ensures Classify(uses, immutable).owner == None
  {
    hide Cut, Strip, SplitActionName, ClassifyRef;
  }

  lemma NameSplits(owner: string, repo: string, tail: string, subpath: Option<string>)
    requires '/' !in owner && '/' !in repo && IsPart(tail, '/', subpath)
    ensures SplitActionName(owner + "/" + repo + tail) == (Some(owner), Some(repo), subpath)
  {
    hide Cut;
    assert owner + "/" + repo + tail == owner + ['/'] + (repo + tail);
    CutFinds(owner, '/', repo + tail);
    PartIff(tail, '/', subpath, repo);
  }

  lemma SplitGivesName(name: string) returns (tail: string)
    requires Truthy(SplitActionName(name).0) && Truthy(SplitActionName(name).1)
    ensures var n := SplitActionName(name);
      && name == n.0.value + "/" + n.1.value + tail && IsPart(tail, '/', n.2)
      && '/' !in n.0.value && '/' !in n.1.value
  {
    hide Cut;
    CutIsPartition(name, '/');
    var rest := Cut(name, '/').1.value;
    CutIsPartition(rest, '/');
    tail := CutGivesPart(rest, '/');
  }

  /** The classifier finds owner, repository, subpath and ref exactly where the text has them. */
  lemma ReadsIff(uses: string, owner: string, repo: string, subpath: Option<string>, ref: Option<string>,
                 immutable: set<string>)
    requires owner != "" && repo != ""
    ensures ReadsAs(uses, owner, repo, subpath, ref) <==>
      var u := Classify(uses, immutable);
      u.owner == Some(owner) && u.repo == Some(repo) && u.subpath == subpath && u.ref == ref
  {
    hide Cut, Strip, SplitActionName, Classify, IsPart;
    var u := Classify(uses, immutable);
    if ReadsAs(uses, owner, repo, subpath, ref) {
      ReadingIsClassified(uses, owner, repo, subpath, ref, immutable);
    }
    if u.owner == Some(owner) && u.repo == Some(repo) && u.subpath == subpath && u.ref == ref {
      ClassifiedReads(uses, immutable);
    }
  }

  lemma ReadingIsClassified(uses: string, owner: string, repo: string, subpath: Option<string>, ref: Option<string>,
                            immutable: set<string>)
    requires ReadsAs(uses, owner, repo, subpath, ref)
    ensures var u := Classify(uses, immutable);
      u.owner == Some(owner) && u.repo == Some(repo) && u.subpath == subpath && u.ref == ref
  {
    hide Cut, Strip, SplitActionName, Classify, IsPart;
    var tail, end :| IsPart(tail, '/', subpath) && IsPart(end, '@', ref)
      && Strip(uses) == owner + "/" + repo + tail + end;
    var name := owner + "/" + repo + tail;
    assert '@' !in tail by { PartIsFree(tail, subpath); }
    PartIff(end, '@', ref, name);
    NameSplits(owner, repo, tail, subpath);
    assert owner + "/" + repo + tail + end == owner + "/" + (repo + tail + end);
    IsMarketplace(owner, repo + tail + end);
    MarketParts(uses, immutable);
  }

  lemma PartIsFree(tail: string, subpath: Option<string>)
    requires IsPart(tail, '/', subpath) && (subpath.Some? ==> '@' !in subpath.value)
    ensures '@' !in tail
  {
  }

  lemma ClassifiedReads(uses: string, immutable: set<string>)
    requires Truthy(Classify(uses, immutable).owner) && Truthy(Classify(uses, immutable).repo)
    ensures var u := Classify(uses, immutable); ReadsAs(uses, u.owner.value, u.repo.value, u.subpath, u.ref)
  {
    hide Cut, Strip, SplitActionName, Classify, IsPart, IsSpace;
    var raw, u := Strip(uses), Classify(uses, immutable);
    if IsElsewhere(raw) {
      ElsewhereParts(uses, immutable);
    }
    MarketParts(uses, immutable);
    CutIsPartition(raw, '@');
    var name := Cut(raw, '@').0;
    var end := CutGivesPart(raw, '@');
    var tail := SplitGivesName(name);
    SplitName(name);
    assert u.owner.value + "/" <= raw;
    assert u.owner.value != "." && u.owner.value != "..";
  }

  /** The text is a name and a ref that is not empty. */
  ghost predicate HasRef(raw: string, ref: string) {
    ref != "" && exists name :: '@' !in name && raw == name + "@" + ref
  }

  lemma HasRefIff(raw: string, ref: string)
    ensures HasRef(raw, ref) <==> ref != "" && Cut(raw, '@').1 == Some(ref)
  {
    hide Cut;
    CutIsPartition(raw, '@');
    if name :| '@' !in name && raw == name + "@" + ref {
      CutFinds(name, '@', ref);
    }
  }

  /** The tag is proven to be an immutable release. */
  ghost predicate IsProven(uses: string, ref: string, immutable: set<string>) {
    exists owner, repo, subpath ::
      ReadsAs(uses, owner, repo, subpath, Some(ref)) && owner + "/" + repo + "@" + ref in immutable
  }

  lemma ProvenIff(uses: string, immutable: set<string>, ref: string)
    requires Classify(uses, immutable).ref == Some(ref)
    ensures var u := Classify(uses, immutable);
      IsProven(uses, ref, immutable) <==>
        Truthy(u.owner) && Truthy(u.repo) && RefKey(u.owner.value, u.repo.value, ref) in immutable
  {
    hide Classify, ReadsAs;
    var u := Classify(uses, immutable);
    if Truthy(u.owner) && Truthy(u.repo) {
      ReadsIff(uses, u.owner.value, u.repo.value, u.subpath, u.ref, immutable);
    }
    if owner, repo, subpath :|
      ReadsAs(uses, owner, repo, subpath, Some(ref)) && owner + "/" + repo + "@" + ref in immutable {
      NotEmpty(uses, owner, repo, subpath, Some(ref));
      ReadsIff(uses, owner, repo, subpath, Some(ref), immutable);
    }
  }

  lemma NotEmpty(uses: string, owner: string, repo: string, subpath: Option<string>, ref: Option<string>)
    requires ReadsAs(uses, owner, repo, subpath, ref)
    ensures owner != "" && repo != ""
  {
  }

  /** The state of a reference, on its text. */
  lemma StateIff(uses: string, immutable: set<string>)
    ensures var raw, state := Strip(uses), Classify(uses, immutable).pinState;
      && (state == Local <==> "./" <= raw || "../" <= raw)
      && (state == Docker <==> "docker://" <= raw)
      && (state == Unpinned <==> !IsElsewhere(raw) && forall ref :: !HasRef(raw, ref))
      && forall ref :: HasRef(raw, ref) && !IsElsewhere(raw) ==>
           && (state == ShaPinned <==> IsShaText(ref))
           && (state == BranchPinned <==> ref in BRANCHES)
           && (state == UnknownRef <==> !IsShaText(ref) && !IsVersionText(ref) && ref !in BRANCHES)
           && (state == TagPinned <==> IsVersionText(ref) && !IsShaText(ref) && !IsProven(uses, ref, immutable))
           && (state == Immutable <==> IsVersionText(ref) && !IsShaText(ref) && IsProven(uses, ref, immutable))
  {
    hide *;
    var raw, u := Strip(uses), Classify(uses, immutable);
    RawState(uses, immutable);
    forall ref
      ensures HasRef(raw, ref) <==> ref != "" && Cut(raw, '@').1 == Some(ref)
      ensures HasRef(raw, ref) && !IsElsewhere(raw) ==>
           && (u.pinState == ShaPinned <==> IsShaText(ref))
           && (u.pinState == BranchPinned <==> ref in BRANCHES)
           && (u.pinState == UnknownRef <==> !IsShaText(ref) && !IsVersionText(ref) && ref !in BRANCHES)
           && (u.pinState == TagPinned <==> IsVersionText(ref) && !IsShaText(ref) && !IsProven(uses, ref, immutable))
           && (u.pinState == Immutable <==> IsVersionText(ref) && !IsShaText(ref) && IsProven(uses, ref, immutable))
    {
      HasRefIff(raw, ref);
      if HasRef(raw, ref) && !IsElsewhere(raw) {
        ClassifyRefIff(ref);
        StateOfRef(uses, immutable, ref);
      }
    }
  }

  lemma RawState(uses: string, immutable: set<string>)
    ensures var raw, state := Strip(uses), Classify(uses, immutable).pinState;
      && (state == Local <==> "./" <= raw || "../" <= raw)
      && (state == Docker <==> "docker://" <= raw)
      && (state == Unpinned <==> !IsElsewhere(raw) && !Truthy(Cut(raw, '@').1))
      && (Truthy(Cut(raw, '@').1) <==> Cut(raw, '@').1.Some? && Cut(raw, '@').1.value != "")
      && (IsElsewhere(raw) <==> "./" <= raw || "../" <= raw || "docker://" <= raw)
  {
    hide Cut, Strip, SplitActionName;
    var raw := Strip(uses);
    if "docker://" <= raw {
      assert raw[0] == 'd';
    }
  }

  lemma StateOfRef(uses: string, immutable: set<string>, ref: string)
    requires !IsElsewhere(Strip(uses)) && ref != "" && Cut(Strip(uses), '@').1 == Some(ref)
    ensures Classify(uses, immutable).pinState ==
      if ClassifyRef(ref) == TagPinned && IsProven(uses, ref, immutable) then Immutable else ClassifyRef(ref)
    ensures ClassifyRef(ref) in {ShaPinned, BranchPinned, TagPinned, UnknownRef}
  {
    hide Cut, Strip, SplitActionName, IsProven, IsSha, IsVersionTag;
    MarketParts(uses, immutable);
    ProvenIff(uses, immutable, ref);
  }
}
