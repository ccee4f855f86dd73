/**
  Stand-in for the AWS SDK's ARN parser, which `getAlarmName` calls. An ARN is
  `arn:<partition>:<service>:<region>:<account-id>:<resource>`: the text must start with
  `arn:` and hold at least five colons; the resource is everything after the fifth
  colon, colons included.
 */
module Arn {
  import opened Wrappers
  import Strings

  const Prefix := "arn:"
  const Delimiter := ':'
  /** Number of colon-separated sections; the last one is the resource. */
  const Sections := 6

  datatype ARN = ARN(partition: string, service: string, region: string, accountId: string, resource: string)

  datatype ParseError = InvalidPrefix | NotEnoughSections

  /** The text of an ARN. */
  function Format(a: ARN): string
  {
    Strings.Join(["arn", a.partition, a.service, a.region, a.accountId, a.resource], Delimiter)
  }

  lemma FormatSpelledOut(a: ARN)
    ensures Format(a) == "arn" + [Delimiter] + a.partition + [Delimiter] + a.service + [Delimiter] + a.region
                         + [Delimiter] + a.accountId + [Delimiter] + a.resource
  {
    Strings.JoinCons(a.accountId, [a.resource], Delimiter);
    Strings.JoinCons(a.region, [a.accountId, a.resource], Delimiter);
    Strings.JoinCons(a.service, [a.region, a.accountId, a.resource], Delimiter);
    Strings.JoinCons(a.partition, [a.service, a.region, a.accountId, a.resource], Delimiter);
    Strings.JoinCons("arn", [a.partition, a.service, a.region, a.accountId, a.resource], Delimiter);
  }

  /** The sections before the resource cannot hold a colon. */
  predicate WellFormed(a: ARN)
  {
    Delimiter !in a.partition && Delimiter !in a.service && Delimiter !in a.region && Delimiter !in a.accountId
  }

  /** Parses an ARN: fails on a missing `arn:` prefix, or on fewer than six sections. */
  function Parse(s: string): (r: Result<ARN, ParseError>)
    ensures r.Ok? <==> Prefix <= s && Strings.Count(s, Delimiter) >= Sections - 1
    ensures r.Err? && !(Prefix <= s) ==> r.error == InvalidPrefix
    ensures r.Ok? ==> WellFormed(r.value) && Format(r.value) == s
  {
    if !(Prefix <= s) then Err(InvalidPrefix)
    else
      var sections := Strings.SplitN(s, Delimiter, Sections);
      Strings.CountJoin(sections, Delimiter);
      if |sections| != Sections then Err(NotEnoughSections)
      else
        var a := ARN(sections[1], sections[2], sections[3], sections[4], sections[5]);
        FormatParsed(s, sections, a);
        Ok(a)
  }

  lemma FormatParsed(s: string, sections: seq<string>, a: ARN)
    requires Prefix <= s
    requires Strings.SplitShape(sections, Delimiter, Sections) && |sections| == Sections
    requires Strings.Join(sections, Delimiter) == s
    requires a == ARN(sections[1], sections[2], sections[3], sections[4], sections[5])
    ensures WellFormed(a) && Format(a) == s
  {
    var rest := Strings.Join(sections[1..], Delimiter);
    assert s == sections[0] + [Delimiter] + rest;
    assert s == "arn" + [Delimiter] + s[4..];
    Strings.FirstSegment(sections[0], "arn", rest, s[4..], Delimiter);
    assert sections == ["arn", a.partition, a.service, a.region, a.accountId, a.resource];
  }

  /** Formatting then parsing gives back the same ARN. */
  lemma ParseFormat(a: ARN)
    requires WellFormed(a)
    ensures Parse(Format(a)) == Ok(a)
  {
    var parts := ["arn", a.partition, a.service, a.region, a.accountId, a.resource];
    assert Strings.SplitShape(parts, Delimiter, Sections);
    Strings.SplitNJoin(parts, Delimiter, Sections);
    assert Format(a) == "arn" + [Delimiter] + Strings.Join(parts[1..], Delimiter);
  }
}
