/** The security rule of backend/app.py (`SECURITY_RULE`, `apply_security_rule`):
    a text that does not mention both required tag names gets a warning comment
    in front of it. Also the request pipeline that chains extraction, generation
    and the rule. */
module Compliance {
  import opened Text
  import opened Extractor
  import opened Generator

  /** The tags the rule requires, in the order the warning lists them. */
  const RequiredTags: seq<string> := ["Environment", "SecurityLevel"]

  /** Python's `', '.join(items)`. */
  function JoinComma(items: seq<string>): string {
    if items == [] then ""
    else if |items| == 1 then items[0]
    else items[0] + ", " + JoinComma(items[1..])
  }

  /** The words of the warning before the tag list, written piece by piece. */
  function WarningLead(): (r: string)
    ensures |r| > 0 && r[0] == '#' && '\n' !in r
  {
    "#" + "  ATTENTION:" + " Vérifiez" + " que" + " toutes" + " les" + " ressources"
    + " ont" + " les" + " tags" + " requis: "
  }

  /** The comment put in front of a non-compliant text: one line, then a blank line. */
  function Warning(): (r: string)
    ensures |r| > 2 && r[0] == '#' && r[|r| - 2..] == "\n\n"
    ensures '\n' !in r[..|r| - 2]
  {
    TagsJoined();
    var line := WarningLead() + JoinComma(RequiredTags);
    assert '\n' !in JoinComma(RequiredTags);
    assert (line + "\n\n")[..|line|] == line;
    assert (line + "\n\n")[|line|..] == "\n\n";
    line + "\n\n"
  }

  /** The rule's test: both tag names occur somewhere in the text. */
  predicate Compliant(code: string) {
    Contains(code, "Environment") && Contains(code, "SecurityLevel")
  }

  /** `apply_security_rule`: a text that fails the test gets the warning in front. */
  function ApplySecurityRule(code: string): (r: string)
    ensures r == code <==> Compliant(code)
    ensures |r| >= |code| && r[|r| - |code|..] == code
  {
    if !Compliant(code) then Warning() + code else code
  }

  // ---------------------------------------------------------------------------
  // Properties of the rule
  // ---------------------------------------------------------------------------

  /** The warning lists the required tags as `Environment, SecurityLevel`. */
  lemma TagsJoined()
    ensures JoinComma(RequiredTags) == "Environment" + ", " + "SecurityLevel"
  {
  }

  /** The warning names both tags, which is also what makes it pass the test. */
  lemma WarningCompliant()
    ensures Compliant(Warning())
  {
    var lead := WarningLead();
    assert Warning() == lead + JoinComma(RequiredTags) + "\n\n";
    TagsJoined();
    assert Warning() == lead + "Environment" + (", " + "SecurityLevel" + "\n\n");
    ContainsInfix(lead, "Environment", ", " + "SecurityLevel" + "\n\n");
    assert Warning() == lead + "Environment" + ", " + "SecurityLevel" + "\n\n";
    ContainsInfix(lead + "Environment" + ", ", "SecurityLevel", "\n\n");
  }

  /** The rule changes a text exactly when the text fails the test, and then only
      by putting the warning in front of it. */
  lemma RuleChangesOnlyNonCompliant(code: string)
    ensures ApplySecurityRule(code) == code <==> Compliant(code)
    ensures !Compliant(code) ==> ApplySecurityRule(code) == Warning() + code
    ensures ApplySecurityRule(code)[|ApplySecurityRule(code)| - |code|..] == code
  {
  }

  /** Whatever the input, the result passes the test. */
  lemma RuleResultCompliant(code: string)
    ensures Compliant(ApplySecurityRule(code))
  {
    if !Compliant(code) {
      WarningCompliant();
      var empty := "";
      ContainsExtend(empty, Warning(), code, "Environment");
      ContainsExtend(empty, Warning(), code, "SecurityLevel");
      assert empty + Warning() + code == Warning() + code;
    }
  }

  /** Applying the rule twice is the same as applying it once. */
  lemma RuleIdempotent(code: string)
    ensures ApplySecurityRule(ApplySecurityRule(code)) == ApplySecurityRule(code)
  {
    RuleResultCompliant(code);
  }

  // ---------------------------------------------------------------------------
  // The rule on generated documents
  // ---------------------------------------------------------------------------

  /** A line's text occurs in the rendering of any line sequence holding it. */
  lemma {:induction false} RenderContainsLine(lines: seq<string>, i: nat, pattern: string)
    requires i < |lines| && Contains(lines[i], pattern)
    ensures Contains(Render(lines), pattern)
  {
    var empty := "";
    if i == 0 {
      ContainsExtend(empty, lines[0], "\n" + Render(lines[1..]), pattern);
      assert empty + lines[0] + ("\n" + Render(lines[1..])) == Render(lines);
    } else {
      RenderContainsLine(lines[1..], i - 1, pattern);
      ContainsExtend(lines[0] + "\n", Render(lines[1..]), empty, pattern);
      assert lines[0] + "\n" + Render(lines[1..]) + empty == Render(lines);
    }
  }

  lemma RenderContainsLeft(a: seq<string>, b: seq<string>, pattern: string)
    requires Contains(Render(a), pattern)
    ensures Contains(Render(a + b), pattern)
  {
    RenderAppend(a, b);
    ContainsExtend("", Render(a), Render(b), pattern);
    assert "" + Render(a) + Render(b) == Render(a) + Render(b);
  }

  lemma RenderContainsRight(a: seq<string>, b: seq<string>, pattern: string)
    requires Contains(Render(b), pattern)
    ensures Contains(Render(a + b), pattern)
  {
    RenderAppend(a, b);
    ContainsExtend(Render(a), Render(b), "", pattern);
    assert Render(a) + Render(b) + "" == Render(a) + Render(b);
  }

  /** Every tag block names both required tags. */
  lemma TagLinesCompliant(name: string)
    ensures Compliant(Render(TagLines(name)))
  {
    var tags := TagLines(name);
    ContainsInfix(Spaces(4), "Environment", " = \"production\"");
    assert tags[2] == Spaces(4) + "Environment" + " = \"production\"";
    ContainsInfix(Spaces(4), "SecurityLevel", " = \"high\"");
    assert tags[3] == Spaces(4) + "SecurityLevel" + " = \"high\"";
    RenderContainsLine(tags, 2, "Environment");
    RenderContainsLine(tags, 3, "SecurityLevel");
  }

  lemma VpcCompliant(p: Provider)
    ensures Compliant(Render(VpcLines(p)))
  {
    var head := [Comment(" Réseau VPC")] + [VpcHeader(p)] + VpcSettings();
    assert VpcLines(p) == head + TagLines("main-vpc");
    TagLinesCompliant("main-vpc");
    RenderContainsRight(head, TagLines("main-vpc"), "Environment");
    RenderContainsRight(head, TagLines("main-vpc"), "SecurityLevel");
  }

  /** The network section carries tags, so it passes the test on its own. */
  lemma NetworkCompliant(p: Provider)
    ensures Compliant(Render(NetworkLines(p)))
  {
    VpcCompliant(p);
    RenderContainsLeft(VpcLines(p), SubnetLines(p), "Environment");
    RenderContainsLeft(VpcLines(p), SubnetLines(p), "SecurityLevel");
  }

  /** What the network section's text contains, the document's text contains. */
  lemma DocumentContains(cfg: Config, pattern: string)
    requires cfg.networks > 0 && Contains(Render(NetworkLines(cfg.provider)), pattern)
    ensures Contains(Document(cfg), pattern)
  {
    var p := cfg.provider;
    var h := HeaderLines(p);
    var n := NetworkLines(p);
    var g := Blocks(SecurityGroup, p, cfg.securityGroups);
    var s := Blocks(Server, p, cfg.servers);
    var d := Blocks(Database, p, cfg.databases);
    DocumentRendered(cfg);
    RenderContainsRight(h, n, pattern);
    RenderContainsLeft(h + n, g, pattern);
    RenderContainsLeft(h + n + g, s, pattern);
    RenderContainsLeft(h + n + g + s, d, pattern);
    RenderContainsLeft(h + n + g + s + d, OutputLines(p), pattern);
  }

  /** A document with a network section passes the test, so the rule leaves the
      generated text as it is. */
  lemma GeneratedUnchanged(cfg: Config)
    requires cfg.networks > 0
    ensures ApplySecurityRule(Document(cfg)) == Document(cfg)
  {
    NetworkCompliant(cfg.provider);
    DocumentContains(cfg, "Environment");
    DocumentContains(cfg, "SecurityLevel");
  }

  // ---------------------------------------------------------------------------
  // The request pipeline
  // ---------------------------------------------------------------------------

  /** Extraction, generation, then the rule, as one request runs them. */
  method Pipeline(description: string) returns (code: string)
    ensures code == Document(Described(description))
  {
    var cfg := Extract(description);
    var generated := Generate(cfg);
    GeneratedUnchanged(cfg);
    code := ApplySecurityRule(generated);
  }
}
