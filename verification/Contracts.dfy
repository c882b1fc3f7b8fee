/** Where smart contracts come from: the member count accepted by cmd/init.go, the loops of the providers that look for a
    container to copy contracts out of, and fabric's choice of an installed chaincode package. */
module Contracts {
  import opened Wrappers
  import opened Decimal
  import opened Names
  import opened Types
  import opened ComposeSpec
  import opened ComposeFacts
  import opened ComposeExact
  import opened ComposeGraph
  import opened HostPorts
  import Ports

  // ---------------------------------------------------------------- the number of members

  const MAX_INT := 0x7fff_ffff_ffff_ffff

  /** strconv.Atoi: an optional sign and decimal digits, within 64 bits. */
  function Atoi(input: string): Option<int> {
    var negative := input != "" && input[0] == '-';
    var digits := if input != "" && (input[0] == '-' || input[0] == '+') then input[1..] else input;
    if digits == "" || !AllDigits(digits) then None
    else
      var v: int := if negative then 0 - Value(digits) else Value(digits);
      if -MAX_INT - 1 <= v <= MAX_INT then Some(v) else None
  }

  /** The input denotes the number: digits, perhaps behind a sign. */
  predicate Denotes(input: string, v: int) {
    || (input != "" && AllDigits(input) && v == Value(input))
    || (|input| > 1 && input[0] == '+' && AllDigits(input[1..]) && v == Value(input[1..]))
    || (|input| > 1 && input[0] == '-' && AllDigits(input[1..]) && v + Value(input[1..]) == 0)
  }

  /** A number is read exactly if the input denotes it and it fits; so a numeral stands for its number. */
  lemma AtoiExactly(input: string, v: int)
    ensures Atoi(input) == Some(v) <==> Denotes(input, v) && -0x8000_0000_0000_0000 <= v <= 0x7fff_ffff_ffff_ffff
    ensures 0 <= v <= 0x7fff_ffff_ffff_ffff ==> Atoi(Digits(v)) == Some(v)
  {
    if input != "" { assert input[0] in {'+', '-'} ==> !AllDigits(input); }
    if 0 <= v <= 0x7fff_ffff_ffff_ffff { NumeralRead(v); }
  }

  lemma NumeralRead(v: nat)
    requires v <= 0x7fff_ffff_ffff_ffff
    ensures Atoi(Digits(v)) == Some(v)
  {
    ValueOfDigits(v);
    assert IsDigit(Digits(v)[0]);
  }

  datatype CountError = InvalidNumber | NotPositive | TooManyExternal

  function ValidateCount(input: string, externalProcesses: int): Option<CountError> {
    match Atoi(input)
    case None => Some(InvalidNumber)
    case Some(i) =>
      if i <= 0 then Some(NotPositive)
      else if externalProcesses >= i then Some(TooManyExternal)
      else None
  }

  /** How initCommon learns the number of members. A prompt goes on asking until the answer is valid, unless the input
      ends; a count that was set before, as init fabric does, is not looked at. */
  datatype CountSource = Argument(text: string) | Prompt(answer: Option<string>) | AlreadySet(count: nat)

  predicate ValidSource(source: CountSource, externalProcesses: int) {
    match source
    case Prompt(Some(text)) => ValidateCount(text, externalProcesses).None?
    case AlreadySet(count) => count != 0
    case _ => true
  }

  method MemberCount(source: CountSource, externalProcesses: int) returns (r: Result<nat, CountError>)
    requires ValidSource(source, externalProcesses)
    ensures r == Failure(InvalidNumber) <==> source.Argument? && Atoi(source.text).None?
    ensures r == Failure(NotPositive) <==> source.Argument? && Atoi(source.text).Some? && Atoi(source.text).value <= 0
    ensures r == Failure(TooManyExternal) <==>
              source.Argument? && Atoi(source.text).Some? && 0 < Atoi(source.text).value <= externalProcesses
    ensures r.Success? && !source.AlreadySet? && source != Prompt(None) ==> externalProcesses < r.value && 0 < r.value
    ensures r.Success? && source.Argument? ==> Atoi(source.text) == Some(r.value)
    ensures r.Success? && source.Prompt? && source.answer.Some? ==> Atoi(source.answer.value) == Some(r.value)
    ensures r.Success? && source == Prompt(None) ==> r.value == 0
    ensures source.AlreadySet? ==> r == Success(source.count)
  {
    match source {
      case Argument(text) =>
        var problem := ValidateCount(text, externalProcesses);
        if problem.Some? {
          return Failure(problem.value);
        }
        r := Success(Atoi(text).value);
      case Prompt(answer) =>
        var text := if answer.Some? then answer.value else "";
        var count := Atoi(text);
        r := Success(if count.Some? then count.value else 0);
      case AlreadySet(count) =>
        r := Success(count);
    }
  }

  // ---------------------------------------------------------------- the first member with a container of its own

  predicate HasInternal(s: Stack) {
    exists i :: 0 <= i < |s.members| && !s.members[i].external
  }

  /** The loop in ReadFireFlyContract and extractChaincode, and with a token index in DeploySmartContracts; an empty name
      means that no container was found. */
  method SourceContainer(s: Stack, tokens: Option<nat>) returns (found: Option<nat>, name: string)
    requires ValidStack(s)
    ensures found.Some? <==> HasInternal(s)
    ensures found.Some? ==>
              && found.value < |s.members| && !s.members[found.value].external
              && (forall j :: 0 <= j < found.value ==> s.members[j].external)
              && name == ContainerName(s.name, if tokens.Some? then Tokens(found.value, tokens.value) else Core(found.value))
    ensures found.None? <==> name == ""
  {
    for i := 0 to |s.members|
      invariant forall j :: 0 <= j < i ==> s.members[j].external
    {
      if !s.members[i].external {
        found := Some(i);
        var index := s.members[i].index;
        name := ContainerName(s.name, if tokens.Some? then Tokens(index, tokens.value) else Core(index));
        return;
      }
    }
    found, name := None, "";
  }

  function Max(a: int, b: int): int {
    if a < b then b else a
  }

  lemma FirstInternal(o: InitOptions, s: Stack)
    requires MadeFrom(o, s)
    ensures HasInternal(s) <==> o.externalProcesses < o.memberCount && 0 < o.memberCount
    ensures HasInternal(s) ==>
              var i := Max(0, o.externalProcesses);
              !s.members[i].external && forall j :: 0 <= j < i ==> s.members[j].external
  {
    assert forall i :: 0 <= i < |s.members| ==> Ports.IsMember(o, i, s.members[i]);
    if o.externalProcesses < o.memberCount && 0 < o.memberCount {
      assert !s.members[Max(0, o.externalProcesses)].external;
    }
  }

  /** The compose file has a service whose container bears the name under which the code looks for it. */
  ghost predicate ContainerDefined(s: Stack, id: ServiceId)
    requires ValidStack(s)
  {
    id in Assembled(s) && ContainerOf(Assembled(s), id) == ContainerName(s.name, id)
  }

  lemma PresentIsDefined(s: Stack, id: ServiceId)
    requires ValidStack(s) && Present(s, id)
    ensures ContainerDefined(s, id)
  {
    AssembledExact(s, id);
    ContainerNamed(s, id);
  }

  /** A count that was validated leaves a member whose containers the compose file defines: the first after the external
      processes, for the core as well as for every token provider. Without validation it is there exactly if the external
      processes are fewer than the members. */
  lemma ContractSourceExists(o: InitOptions, s: Stack)
    requires MadeFrom(o, s) && ValidStack(s)
    ensures HasInternal(s) <==> o.externalProcesses < o.memberCount && 0 < o.memberCount
    ensures HasInternal(s) ==>
              var i := Max(0, o.externalProcesses);
              ContainerDefined(s, Core(i)) && forall k: nat :: k < |s.tokenProviders| ==> ContainerDefined(s, Tokens(i, k))
  {
    FirstInternal(o, s);
    if HasInternal(s) {
      var i := Max(0, o.externalProcesses);
      PresentIsDefined(s, Core(i));
      forall k: nat | k < |s.tokenProviders| {
        PresentIsDefined(s, Tokens(i, k));
      }
    }
  }

  // ---------------------------------------------------------------- fabric's installed packages

  datatype InstalledChaincode = InstalledChaincode(packageID: string, labelText: string)

  /** The position of the first underscore, or the length. */
  function Underscore(s: string): (k: nat)
    ensures k <= |s|
    ensures forall j :: 0 <= j < k ==> s[j] != '_'
    ensures k < |s| ==> s[k] == '_'
  {
    if s == "" || s[0] == '_' then 0 else Underscore(s[1..]) + 1
  }

  /** The submatches of the regular expression for labels: the whole label and what comes before its first underscore.
      Nothing may be empty and the rest must stay on one line. */
  function Submatches(labelText: string): seq<string> {
    var k := Underscore(labelText);
    if 0 < k < |labelText| - 1 && '\n' !in labelText[k + 1..] then [labelText, labelText[..k]] else []
  }

  predicate Selects(chaincode: string, c: InstalledChaincode) {
    chaincode in Submatches(c.labelText)
  }

  method Fits(c: InstalledChaincode, chaincode: string) returns (fits: bool)
    ensures fits <==> Selects(chaincode, c)
  {
    var matches := Submatches(c.labelText);
    for m := 0 to |matches|
      invariant forall j :: 0 <= j < m ==> matches[j] != chaincode
    {
      if matches[m] == chaincode {
        return true;
      }
    }
    return false;
  }

  /** The loops over the installed packages: the last one with a fitting label is approved and committed, whatever the
      version asked for. */
  method SelectPackage(installed: seq<InstalledChaincode>, chaincode: string) returns (r: Option<string>)
    ensures r.Some? <==> exists c :: c in installed && Selects(chaincode, c)
    ensures r.Some? ==>
              exists k :: 0 <= k < |installed| && Selects(chaincode, installed[k]) && r.value == installed[k].packageID
                && forall j :: k < j < |installed| ==> !Selects(chaincode, installed[j])
  {
    var chaincodeInstalled, packageID := false, "";
    for i := 0 to |installed|
      invariant chaincodeInstalled <==> exists k :: 0 <= k < i && Selects(chaincode, installed[k])
      invariant chaincodeInstalled ==>
        exists k :: 0 <= k < i && Selects(chaincode, installed[k]) && packageID == installed[k].packageID
          && forall j :: k < j < i ==> !Selects(chaincode, installed[j])
    {
      var fits := Fits(installed[i], chaincode);
      if fits {
        chaincodeInstalled, packageID := true, installed[i].packageID;
      }
    }
    r := if chaincodeInstalled then Some(packageID) else None;
    if chaincodeInstalled {
      var k :| 0 <= k < |installed| && Selects(chaincode, installed[k]);
      assert installed[k] in installed;
    }
  }

  /** The packages a name selects: those labelled with the name, an underscore and more, and the one labelled so itself. */
  lemma SelectsExactly(chaincode: string, c: InstalledChaincode)
    requires '\n' !in c.labelText
    ensures Selects(chaincode, c) <==>
              (0 < Underscore(c.labelText) < |c.labelText| - 1
               && (c.labelText == chaincode
                   || ('_' !in chaincode && |chaincode| < |c.labelText| && c.labelText[..|chaincode| + 1] == chaincode + "_")))
  {
    var labelText, k := c.labelText, Underscore(c.labelText);
    if 0 < k < |labelText| - 1 {
      assert forall x :: x in labelText[k + 1..] ==> x in labelText;
      if chaincode == labelText[..k] {
        assert labelText[..k + 1] == chaincode + "_";
      }
      if '_' !in chaincode && |chaincode| < |labelText| && labelText[..|chaincode| + 1] == chaincode + "_" {
        NameEndsAtUnderscore(labelText, chaincode);
      }
    }
  }

  lemma NameEndsAtUnderscore(labelText: string, name: string)
    requires '_' !in name && |name| < |labelText| && labelText[..|name| + 1] == name + "_"
    ensures Underscore(labelText) == |name| && labelText[..|name|] == name
  {
    assert labelText[|name|] == labelText[..|name| + 1][|name|] == '_';
    assert labelText[..|name|] == labelText[..|name| + 1][..|name|] == name;
    assert forall j :: 0 <= j < |name| ==> labelText[j] == name[j] && name[j] in name;
  }
}
