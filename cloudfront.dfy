/** The CloudFront runner: its display name, and the cleanup of the error message the
    service returns for a function that threw. */
module CloudFront {
  import opened Wrappers
  import opened Strings
  import opened Run

  /** The wrapper text CloudFront puts in front of the error a function throws. */
  const Boilerplate: string :=
    "The CloudFront function " + "associated with the CloudFront distribution " + "is invalid or could not run. Error: "

  /** cloudFrontRunner: the function's name and stage (the client and ETag are not modelled). */
  datatype CloudFrontRunner = CloudFrontRunner(name: string, stage: string) {

    /** Name: the function name, one space, then the stage. */
    function Name(): (n: string)
      ensures |n| == |name| + 1 + |stage| && n[|name|] == ' '
      ensures n[..|name|] == name && n[|name| + 1..] == stage
    {
      name + " " + stage
    }

    /** The part of Run after the service call: a failed call is returned as it is; a
        reply's error message, when present, loses the first copy of the boilerplate and
        every other field is kept. */
    method Run(reply: RunOutcome) returns (outcome: RunOutcome)
      ensures reply.RunFailed? ==> outcome == reply
      ensures reply.Ran? ==> outcome.Ran?
      ensures reply.Ran? ==>
        var before := reply.testResult;
        var after := outcome.testResult;
        && after.ComputeUtilization == before.ComputeUtilization
        && after.FunctionOutput == before.FunctionOutput
        && (before.FunctionErrorMessage.None? ==> after.FunctionErrorMessage.None?)
        && (before.FunctionErrorMessage.Some? ==>
              after.FunctionErrorMessage == Some(StripBoilerplate(before.FunctionErrorMessage.value)))
    {
      if reply.RunFailed? {
        return reply;
      }
      var r := reply.testResult;
      if r.FunctionErrorMessage.Some? {
        r := r.(FunctionErrorMessage := Some(StripBoilerplate(r.FunctionErrorMessage.value)));
      }
      return Ran(r);
    }
  }

  /** The error message with the first copy of the boilerplate taken out, wherever it
      stands; a message without it is returned as it is. */
  function StripBoilerplate(message: string): (r: string)
    ensures !Contains(message, Boilerplate) ==> r == message
    ensures Contains(message, Boilerplate) ==> |r| == |message| - |Boilerplate|
    ensures Contains(message, Boilerplate) ==>
      exists i: nat :: OccursAt(message, Boilerplate, i)
                       && (forall j: nat :: j < i ==> !OccursAt(message, Boilerplate, j))
                       && r == message[..i] + message[i + |Boilerplate|..]
  {
    ReplaceFirst(message, Boilerplate, "")
  }

  /** A message that starts with the boilerplate keeps exactly what follows it, even when
      that holds another copy of the boilerplate: at most one copy is removed. */
  lemma StripLeading(rest: string)
    ensures StripBoilerplate(Boilerplate + rest) == rest
  {
  }

  /** The boilerplate's first character appears nowhere else in it, so no copy of it can
      overlap the start of another. */
  lemma BoilerplateHasNoBorder(k: nat)
    requires 0 < k < |Boilerplate|
    ensures Boilerplate[k] != Boilerplate[0]
  {
    var a, b, c := "The CloudFront function ", "associated with the CloudFront distribution ", "is invalid or could not run. Error: ";
    assert Boilerplate[0] == 'T';
    if k < |a| {
      assert forall i | 0 < i < |a| :: a[i] != 'T';
    } else if k < |a| + |b| {
      assert 'T' !in b;
      assert Boilerplate[k] == b[k - |a|];
    } else {
      assert 'T' !in c;
      assert Boilerplate[k] == c[k - |a| - |b|];
    }
  }

  /** The removal is not anchored: a copy after any text without one is removed, and
      the text on both sides is kept verbatim. */
  lemma StripAnywhere(before: string, after: string)
    requires !Contains(before, Boilerplate)
    ensures StripBoilerplate(before + Boilerplate + after) == before + after
  {
    var m := before + Boilerplate + after;
    assert OccursAt(m, Boilerplate, |before|);
    forall j: nat | j < |before|
      ensures !OccursAt(m, Boilerplate, j)
    {
      if j + |Boilerplate| <= |before| {
        assert !OccursAt(before, Boilerplate, j);
        assert before[j..j + |Boilerplate|] == m[j..j + |Boilerplate|];
      } else {
        var k := |before| - j;
        BoilerplateHasNoBorder(k);
        assert m[|before|] == Boilerplate[0];
        assert j + |Boilerplate| > |m| || m[j..j + |Boilerplate|][k] != Boilerplate[k];
      }
    }
    var i: nat :| OccursAt(m, Boilerplate, i) && (forall j: nat :: j < i ==> !OccursAt(m, Boilerplate, j))
             && StripBoilerplate(m) == m[..i] + m[i + |Boilerplate|..];
    assert i == |before|;
    assert m[..i] == before && m[i + |Boilerplate|..] == after;
  }

  /** With no space in the function name, the name and the stage can be read back from
      Name(): the first space ends the name and the stage follows it. */
  lemma NameSplitsAtFirstSpace(c: CloudFrontRunner)
    requires ' ' !in c.name
    ensures Index(c.Name(), " ") == Some(|c.name|)
    ensures c.Name()[..|c.name|] == c.name && c.Name()[|c.name| + 1..] == c.stage
  {
    var n := c.Name();
    assert OccursAt(n, " ", |c.name|);
    forall j: nat | j < |c.name|
      ensures !OccursAt(n, " ", j)
    {
      assert n[j] == c.name[j];
    }
  }
}
