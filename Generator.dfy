/** The generator of backend/app.py (`generate_terraform_code`): expands fixed
    Terraform templates for a configuration record.

    Every template is written as its sequence of lines; `Render` turns lines into
    the text the f-strings produce (each line followed by a newline). The facts
    about the document (which resource blocks it declares, in which order, what
    they reference) are stated about this line sequence, selected by line prefix. */
module Generator {
  import opened Text
  import opened Extractor

  function ProviderName(p: Provider): string {
    match p
    case Aws => "aws"
    case Azure => "azure"
    case Gcp => "gcp"
    case Openstack => "openstack"
  }

  // ---------------------------------------------------------------------------
  // Lines and their rendering
  // ---------------------------------------------------------------------------

  /** The text of a line sequence: every line followed by a newline. */
  function Render(lines: seq<string>): string {
    if lines == [] then "" else lines[0] + "\n" + Render(lines[1..])
  }

  lemma {:induction false} RenderAppend(a: seq<string>, b: seq<string>)
    ensures Render(a + b) == Render(a) + Render(b)
  {
    if a == [] {
      assert a + b == b;
    } else {
      assert (a + b)[1..] == a[1..] + b;
      RenderAppend(a[1..], b);
    }
  }

  /** The lines of `lines` that begin with `prefix`, in order. */
  function Select(lines: seq<string>, prefix: string): seq<string> {
    if lines == [] then []
    else (if StartsWith(lines[0], prefix) then [lines[0]] else []) + Select(lines[1..], prefix)
  }

  lemma {:induction false} SelectAppend(a: seq<string>, b: seq<string>, prefix: string)
    ensures Select(a + b, prefix) == Select(a, prefix) + Select(b, prefix)
  {
    if a == [] {
      assert a + b == b;
    } else {
      assert (a + b)[1..] == a[1..] + b;
      SelectAppend(a[1..], b, prefix);
    }
  }

  lemma {:induction false} SelectNone(lines: seq<string>, prefix: string)
    requires forall i :: 0 <= i < |lines| ==> !StartsWith(lines[i], prefix)
    ensures Select(lines, prefix) == []
  {
    if lines != [] {
      assert forall i :: 0 <= i < |lines| - 1 ==> lines[1..][i] == lines[i + 1];
      SelectNone(lines[1..], prefix);
    }
  }

  const ResourcePrefix := "resource \""
  const OutputPrefix := "output \""
  const SecurityGroupRefPrefix := "  vpc_security_group_ids = ["

  /** A line that carries none of the markers the properties below look for: it
      opens no resource block, no output and is no security-group reference. */
  predicate Plain(line: string) {
    !StartsWith(line, ResourcePrefix) && !StartsWith(line, OutputPrefix)
    && !StartsWith(line, SecurityGroupRefPrefix)
  }

  predicate Unmarked(lines: seq<string>) {
    forall i :: 0 <= i < |lines| ==> Plain(lines[i])
  }

  /** A line differing from `prefix` at position `k` does not start with it. */
  lemma DiffersAt(line: string, prefix: string, k: nat)
    requires k < |prefix| && (k >= |line| || line[k] != prefix[k])
    ensures !StartsWith(line, prefix)
  {
    if |prefix| <= |line| {
      assert line[..|prefix|][k] == line[k];
    }
  }

  function Spaces(n: nat): string {
    seq(n, _ => ' ')
  }

  /** A line indented by `n` spaces. */
  function Ind(n: nat, text: string): string {
    Spaces(n) + text
  }

  /** A line one level deep (two spaces): a `key` and the rest of the line. */
  function Attr(key: string, rest: string): string {
    Spaces(2) + (key + rest)
  }

  function Comment(text: string): string {
    "#" + text
  }

  /** The opening line of a resource block: `resource "<type>" "<name>" {`. */
  function Resource(resourceType: string, name: string): string {
    ResourcePrefix + (resourceType + "\" \"" + name + "\" {")
  }

  // ---------------------------------------------------------------------------
  // Which lines carry a marker
  // ---------------------------------------------------------------------------

  lemma IndentedPlain(n: nat, text: string)
    requires n >= 2
    requires n > 2 || text == [] || text[0] != 'v' || (|text| > 1 && text[1] != 'p')
    ensures Plain(Ind(n, text))
  {
    var line := Ind(n, text);
    DiffersAt(line, ResourcePrefix, 0);
    DiffersAt(line, OutputPrefix, 0);
    if n > 2 || text == [] || text[0] != 'v' {
      DiffersAt(line, SecurityGroupRefPrefix, 2);
    } else {
      DiffersAt(line, SecurityGroupRefPrefix, 3);
    }
  }

  /** Only a two-space line beginning `vpc_s` could be a security-group reference. */
  lemma AttrPlain(key: string, rest: string)
    requires (key == [] && rest == []) || (key != [] && key[0] != 'v') || (|key| > 1 && key[1] != 'p')
    ensures Plain(Attr(key, rest))
  {
    assert key != [] ==> (key + rest)[0] == key[0];
    assert |key| > 1 ==> (key + rest)[1] == key[1];
    IndentedPlain(2, key + rest);
  }

  lemma VpcIdPlain(rest: string)
    ensures Plain(Attr("vpc_id", rest))
  {
    var line := Attr("vpc_id", rest);
    DiffersAt(line, ResourcePrefix, 0);
    DiffersAt(line, OutputPrefix, 0);
    DiffersAt(line, SecurityGroupRefPrefix, 6);
  }

  lemma CommentPlain(text: string)
    ensures Plain(Comment(text))
  {
    DiffersAt(Comment(text), ResourcePrefix, 0);
    DiffersAt(Comment(text), OutputPrefix, 0);
    DiffersAt(Comment(text), SecurityGroupRefPrefix, 0);
  }

  /** An unindented line that does not begin like a resource or an output. */
  lemma TopPlain(line: string)
    requires line == [] || (line[0] != 'r' && line[0] != 'o' && line[0] != ' ')
    ensures Plain(line)
  {
    if line != [] {
      DiffersAt(line, ResourcePrefix, 0);
      DiffersAt(line, OutputPrefix, 0);
      DiffersAt(line, SecurityGroupRefPrefix, 0);
    }
  }

  lemma ResourceMarked(resourceType: string, name: string)
    ensures StartsWith(Resource(resourceType, name), ResourcePrefix)
    ensures !StartsWith(Resource(resourceType, name), OutputPrefix)
    ensures !StartsWith(Resource(resourceType, name), SecurityGroupRefPrefix)
  {
    var line := Resource(resourceType, name);
    DiffersAt(line, OutputPrefix, 0);
    DiffersAt(line, SecurityGroupRefPrefix, 0);
  }

  // ---------------------------------------------------------------------------
  // Templates
  // ---------------------------------------------------------------------------

  /** The tags every resource carries, closing brace of the block included. */
  function TagLines(name: string): seq<string> {
    [ Attr("tags", " = {"),
      Ind(4, "Name        = \"" + name + "\""),
      Ind(4, "Environment = \"production\""),
      Ind(4, "SecurityLevel = \"high\""),
      Attr("}", ""),
      "}",
      "" ]
  }

  /** The pinned Terraform version and provider plugin. */
  function TerraformBlock(name: string): seq<string> {
    [ "terraform {",
      Attr("required_version", " = \">= 1.0\""),
      Attr("", ""),
      Attr("required_providers", " {"),
      Ind(4, name + " = {"),
      Ind(6, "source  = \"hashicorp/" + name + "\""),
      Ind(6, "version = \"~> 5.0\""),
      Ind(4, "}"),
      Attr("}", ""),
      "}",
      "" ]
  }

  function ProviderBlock(name: string): seq<string> {
    [ "provider \"" + name + "\" {",
      Attr("region", " = \"us-east-1\""),
      Attr("#", " Configurez vos credentials ici"),
      "}",
      "" ]
  }

  /** The document's opening: a banner naming the provider in upper case, then
      the Terraform and provider settings. */
  function HeaderLines(p: Provider): seq<string> {
    var name := ProviderName(p);
    [ Comment(" Infrastructure générée automatiquement"),
      Comment(" Provider: " + Upper(name)),
      "" ]
    + TerraformBlock(name)
    + ProviderBlock(name)
  }

  function VpcHeader(p: Provider): string {
    Resource(ProviderName(p) + "_vpc", "main")
  }

  function SubnetHeader(p: Provider): string {
    Resource(ProviderName(p) + "_subnet", "public")
  }

  function VpcSettings(): seq<string> {
    [ Attr("cidr_block", "           = \"10.0.0.0/16\""),
      Attr("enable_dns_hostnames", " = true"),
      Attr("enable_dns_support", "   = true"),
      Attr("", "") ]
  }

  function VpcBody(): seq<string> {
    VpcSettings() + TagLines("main-vpc")
  }

  function SubnetSettings(p: Provider): seq<string> {
    [ Attr("vpc_id", "                  = " + ProviderName(p) + "_vpc.main.id"),
      Attr("cidr_block", "              = \"10.0.1.0/24\""),
      Attr("availability_zone", "       = \"us-east-1a\""),
      Attr("map_public_ip_on_launch", " = true"),
      Attr("", "") ]
  }

  function SubnetBody(p: Provider): seq<string> {
    SubnetSettings(p) + TagLines("public-subnet")
  }

  function VpcLines(p: Provider): seq<string> {
    [Comment(" Réseau VPC")] + [VpcHeader(p)] + VpcBody()
  }

  function SubnetLines(p: Provider): seq<string> {
    [Comment(" Subnet public")] + [SubnetHeader(p)] + SubnetBody(p)
  }

  /** The network section: one VPC and one public subnet. */
  function NetworkLines(p: Provider): seq<string> {
    VpcLines(p) + SubnetLines(p)
  }

  /** The three kinds of block the generator repeats, numbered from 1. */
  datatype Kind = SecurityGroup | Server | Database

  /** The header of block number `index` of a kind: `main_<i>`, `server_<i>`, `database_<i>`. */
  function BlockHeader(k: Kind, p: Provider, index: nat): string {
    var n := Decimal(index);
    match k
    case SecurityGroup => Resource(ProviderName(p) + "_security_group", "main_" + n)
    case Server => Resource(ProviderName(p) + "_instance", "server_" + n)
    case Database => Resource(ProviderName(p) + "_db_instance", "database_" + n)
  }

  function BlockComment(k: Kind, index: nat): string {
    var n := Decimal(index);
    match k
    case SecurityGroup => Comment(" Groupe de sécurité " + n)
    case Server => Comment(" Serveur " + n)
    case Database => Comment(" Base de données " + n)
  }

  /** The one security-group reference instances and databases carry: always group `main_1`. */
  function SecurityGroupRef(p: Provider): string {
    SecurityGroupRefPrefix + (ProviderName(p) + "_security_group" + "." + "main_1" + ".id]")
  }

  /** An inbound rule admitting TCP traffic on `port` from anywhere. */
  function IngressRule(description: string, port: string): seq<string> {
    [ Attr("ingress", " {"),
      Ind(4, "description = \"" + description + "\""),
      Ind(4, "from_port   = " + port),
      Ind(4, "to_port     = " + port),
      Ind(4, "protocol    = \"tcp\""),
      Ind(4, "cidr_blocks = [\"0.0.0.0/0\"]"),
      Attr("}", "") ]
  }

  /** The outbound rule admitting all traffic to anywhere. */
  function EgressRule(): seq<string> {
    [ Attr("egress", " {"),
      Ind(4, "from_port   = 0"),
      Ind(4, "to_port     = 0"),
      Ind(4, "protocol    = \"-1\""),
      Ind(4, "cidr_blocks = [\"0.0.0.0/0\"]"),
      Attr("}", "") ]
  }

  function SecurityGroupSettings(p: Provider, n: string): seq<string> {
    [ Attr("name", "        = \"main-sg-" + n + "\""),
      Attr("description", " = \"Groupe de sécurité principal " + n + "\""),
      Attr("vpc_id", "      = " + ProviderName(p) + "_vpc.main.id"),
      Attr("", "") ]
  }

  function SecurityGroupBody(p: Provider, n: string): seq<string> {
    SecurityGroupSettings(p, n)
    + IngressRule("HTTP", "80") + [Attr("", "")]
    + IngressRule("HTTPS", "443") + [Attr("", "")]
    + EgressRule() + [Attr("", "")]
    + TagLines("main-sg-" + n)
  }

  function ServerSettings(p: Provider): seq<string> {
    [ Attr("ami", "           = \"ami-0c55b159cbfafe1f0\"  # Amazon Linux 2"),
      Attr("instance_type", " = \"t2.micro\""),
      Attr("subnet_id", "     = " + ProviderName(p) + "_subnet.public.id"),
      Attr("", "") ]
  }

  function ServerTail(n: string): seq<string> {
    [Attr("", "")] + TagLines("server-" + n)
  }

  function DatabaseSettings(n: string): seq<string> {
    [ Attr("identifier", "     = \"db-" + n + "\""),
      Attr("engine", "         = \"mysql\""),
      Attr("engine_version", " = \"8.0\""),
      Attr("instance_class", " = \"db.t2.micro\""),
      Attr("allocated_storage", " = 20"),
      Attr("storage_type", "   = \"gp2\""),
      Attr("", ""),
      Attr("db_name", "  = \"mydb\""),
      Attr("username", " = \"admin\""),
      Attr("password", " = \"ChangeMe123!\"  # À changer en production"),
      Attr("", "") ]
  }

  function DatabaseBackup(): seq<string> {
    [ Attr("", ""),
      Attr("backup_retention_period", " = 7"),
      Attr("backup_window", "          = \"03:00-04:00\""),
      Attr("maintenance_window", "     = \"mon:04:00-mon:05:00\""),
      Attr("", "") ]
  }

  function DatabaseTail(n: string): seq<string> {
    DatabaseBackup() + TagLines("database-" + n)
  }

  /** What follows the header of a block numbered `n`: its settings, the
      reference to security group `main_1` (instances and databases only), its tags. */
  function BlockBody(k: Kind, p: Provider, n: string): seq<string> {
    match k
    case SecurityGroup => SecurityGroupBody(p, n)
    case Server => ServerSettings(p) + [SecurityGroupRef(p)] + ServerTail(n)
    case Database => DatabaseSettings(n) + [SecurityGroupRef(p)] + DatabaseTail(n)
  }

  /** Block number `index` of kind `k`. */
  function BlockLines(k: Kind, p: Provider, index: nat): seq<string> {
    [BlockComment(k, index), BlockHeader(k, p, index)] + BlockBody(k, p, Decimal(index))
  }

  /** The lines `block` gives for blocks 1 .. count, in increasing order. */
  function Repeat(block: nat -> seq<string>, count: nat): seq<string> {
    if count == 0 then [] else Repeat(block, count - 1) + block(count)
  }

  /** Block `index` of kind `k`, as a function of the index. */
  function BlockFn(k: Kind, p: Provider): nat -> seq<string> {
    (index: nat) => BlockLines(k, p, index)
  }

  /** Blocks 1 .. count of kind `k`, in increasing order. */
  function Blocks(k: Kind, p: Provider, count: nat): seq<string> {
    Repeat(BlockFn(k, p), count)
  }

  /** The opening line of an output: `output "<name>" {`. */
  function OutputHeader(name: string): string {
    OutputPrefix + (name + "\" {")
  }

  /** The value of an output, and the brace that closes it. */
  function OutputValue(value: string): seq<string> {
    [Attr("value", " = " + value), "}"]
  }

  /** The two outputs: the VPC id and the public subnet id. */
  function OutputLines(p: Provider): seq<string> {
    [Comment(" Outputs")] + [OutputHeader("vpc_id")] + OutputValue(ProviderName(p) + "_vpc.main.id")
    + ([""] + [OutputHeader("public_subnet_id")] + OutputValue(ProviderName(p) + "_subnet.public.id"))
  }

  /** The lines of the generated document, section by section. */
  function DocumentLines(cfg: Config): (r: seq<string>)
    ensures |HeaderLines(cfg.provider)| + |OutputLines(cfg.provider)| <= |r|
    ensures r[..|HeaderLines(cfg.provider)|] == HeaderLines(cfg.provider)
    ensures r[|r| - |OutputLines(cfg.provider)|..] == OutputLines(cfg.provider)
  {
    var p := cfg.provider;
    var h, o := HeaderLines(p), OutputLines(p);
    var n := if cfg.networks > 0 then NetworkLines(p) else [];
    var g, s, d := Blocks(SecurityGroup, p, cfg.securityGroups), Blocks(Server, p, cfg.servers),
                   Blocks(Database, p, cfg.databases);
    SectionsFrame(h, n, g, s, d, o);
    h + n + g + s + d + o
  }

  /** Six sections in a row begin with the first and end with the last. */
  lemma SectionsFrame(h: seq<string>, n: seq<string>, g: seq<string>,
                      s: seq<string>, d: seq<string>, o: seq<string>)
    ensures |h| + |o| <= |h + n + g + s + d + o|
    ensures (h + n + g + s + d + o)[..|h|] == h
    ensures (h + n + g + s + d + o)[|h + n + g + s + d + o| - |o|..] == o
  {
  }

  /** `text` followed by the text of the blocks 1 .. count `block` gives, appended one by one. */
  function Appended(text: string, block: nat -> seq<string>, count: nat): string {
    if count == 0 then text else Appended(text, block, count - 1) + Render(block(count))
  }

  /** Appending only ever extends the text. */
  lemma {:induction false} AppendedExtends(text: string, block: nat -> seq<string>, count: nat)
    ensures StartsWith(Appended(text, block, count), text)
  {
    if count > 0 {
      AppendedExtends(text, block, count - 1);
      var before := Appended(text, block, count - 1);
      assert (before + Render(block(count)))[..|text|] == before[..|text|];
    }
  }

  /** The generated document: the header, the network section when networks are
      asked for, the three kinds of repeated block, and the outputs. */
  function Document(cfg: Config): (r: string)
    ensures StartsWith(r, Render(HeaderLines(cfg.provider)))
    ensures |Render(OutputLines(cfg.provider))| <= |r|
    ensures r[|r| - |Render(OutputLines(cfg.provider))|..] == Render(OutputLines(cfg.provider))
  {
    var p := cfg.provider;
    var header := Render(HeaderLines(p));
    var network := if cfg.networks > 0 then Render(NetworkLines(p)) else "";
    var start := header + network;
    var withGroups := Appended(start, BlockFn(SecurityGroup, p), cfg.securityGroups);
    var withServers := Appended(withGroups, BlockFn(Server, p), cfg.servers);
    var withDatabases := Appended(withServers, BlockFn(Database, p), cfg.databases);
    var outputs := Render(OutputLines(p));
    AppendedExtends(start, BlockFn(SecurityGroup, p), cfg.securityGroups);
    AppendedExtends(withGroups, BlockFn(Server, p), cfg.servers);
    AppendedExtends(withServers, BlockFn(Database, p), cfg.databases);
    TextFrame(header, network, withGroups, withServers, withDatabases, outputs);
    withDatabases + outputs
  }

  /** Text that grows by extension only keeps its first part and ends with what
      was appended last. */
  lemma TextFrame(header: string, network: string, a: string, b: string, c: string, last: string)
    requires StartsWith(a, header + network) && StartsWith(b, a) && StartsWith(c, b)
    ensures StartsWith(c + last, header)
    ensures |last| <= |c + last| && (c + last)[|c + last| - |last|..] == last
  {
    var start := header + network;
    assert (c + last)[..|header|] == c[..|header|];
    assert c[..|header|] == b[..|header|] == a[..|header|] == start[..|header|];
  }

  // ---------------------------------------------------------------------------
  // Which lines of each template carry a marker
  // ---------------------------------------------------------------------------

  lemma UnmarkedSelect(lines: seq<string>)
    requires Unmarked(lines)
    ensures Select(lines, ResourcePrefix) == []
    ensures Select(lines, OutputPrefix) == []
    ensures Select(lines, SecurityGroupRefPrefix) == []
  {
    SelectNone(lines, ResourcePrefix);
    SelectNone(lines, OutputPrefix);
    SelectNone(lines, SecurityGroupRefPrefix);
  }

  lemma UnmarkedAppend(a: seq<string>, b: seq<string>)
    requires Unmarked(a) && Unmarked(b)
    ensures Unmarked(a + b)
  {
    assert forall i :: |a| <= i < |a + b| ==> (a + b)[i] == b[i - |a|];
  }

  lemma TagLinesUnmarked(name: string)
    ensures Unmarked(TagLines(name))
  {
    AttrPlain("tags", " = {");
    IndentedPlain(4, "Name        = \"" + name + "\"");
    IndentedPlain(4, "Environment = \"production\"");
    IndentedPlain(4, "SecurityLevel = \"high\"");
    AttrPlain("}", "");
    TopPlain("}");
    TopPlain("");
  }

  lemma TerraformBlockUnmarked(name: string)
    ensures Unmarked(TerraformBlock(name))
  {
    var t := TerraformBlock(name);
    forall i | 0 <= i < |t|
      ensures Plain(t[i])
    {
      if i == 0 { TopPlain("terraform {"); }
      else if i == 1 { AttrPlain("required_version", " = \">= 1.0\""); }
      else if i == 2 { AttrPlain("", ""); }
      else if i == 3 { AttrPlain("required_providers", " {"); }
      else if i == 4 { IndentedPlain(4, name + " = {"); }
      else if i == 5 { IndentedPlain(6, "source  = \"hashicorp/" + name + "\""); }
      else if i == 6 { IndentedPlain(6, "version = \"~> 5.0\""); }
      else if i == 7 { IndentedPlain(4, "}"); }
      else if i == 8 { AttrPlain("}", ""); }
      else if i == 9 { TopPlain("}"); }
      else { TopPlain(""); }
    }
  }

  lemma ProviderBlockUnmarked(name: string)
    ensures Unmarked(ProviderBlock(name))
  {
    TopPlain("provider \"" + name + "\" {");
    AttrPlain("region", " = \"us-east-1\"");
    AttrPlain("#", " Configurez vos credentials ici");
    TopPlain("}");
    TopPlain("");
  }

  lemma BannerUnmarked(name: string)
    ensures Unmarked([Comment(" Infrastructure générée automatiquement"), Comment(" Provider: " + Upper(name)), ""])
  {
    CommentPlain(" Infrastructure générée automatiquement");
    CommentPlain(" Provider: " + Upper(name));
    TopPlain("");
  }

  lemma HeaderUnmarked(p: Provider)
    ensures Unmarked(HeaderLines(p))
  {
    var name := ProviderName(p);
    var banner := [Comment(" Infrastructure générée automatiquement"), Comment(" Provider: " + Upper(name)), ""];
    BannerUnmarked(name);
    TerraformBlockUnmarked(name);
    ProviderBlockUnmarked(name);
    UnmarkedAppend(banner, TerraformBlock(name));
    UnmarkedAppend(banner + TerraformBlock(name), ProviderBlock(name));
  }

  lemma VpcBodyUnmarked()
    ensures Unmarked(VpcBody())
  {
    AttrPlain("cidr_block", "           = \"10.0.0.0/16\"");
    AttrPlain("enable_dns_hostnames", " = true");
    AttrPlain("enable_dns_support", "   = true");
    AttrPlain("", "");
    TagLinesUnmarked("main-vpc");
    UnmarkedAppend(VpcSettings(), TagLines("main-vpc"));
  }

  lemma SubnetBodyUnmarked(p: Provider)
    ensures Unmarked(SubnetBody(p))
  {
    VpcIdPlain("                  = " + ProviderName(p) + "_vpc.main.id");
    AttrPlain("cidr_block", "              = \"10.0.1.0/24\"");
    AttrPlain("availability_zone", "       = \"us-east-1a\"");
    AttrPlain("map_public_ip_on_launch", " = true");
    AttrPlain("", "");
    TagLinesUnmarked("public-subnet");
    UnmarkedAppend(SubnetSettings(p), TagLines("public-subnet"));
  }

  lemma IngressRuleUnmarked(description: string, port: string)
    ensures Unmarked(IngressRule(description, port))
  {
    AttrPlain("ingress", " {");
    IndentedPlain(4, "description = \"" + description + "\"");
    IndentedPlain(4, "from_port   = " + port);
    IndentedPlain(4, "to_port     = " + port);
    IndentedPlain(4, "protocol    = \"tcp\"");
    IndentedPlain(4, "cidr_blocks = [\"0.0.0.0/0\"]");
    AttrPlain("}", "");
  }

  lemma EgressRuleUnmarked()
    ensures Unmarked(EgressRule())
  {
    AttrPlain("egress", " {");
    IndentedPlain(4, "from_port   = 0");
    IndentedPlain(4, "to_port     = 0");
    IndentedPlain(4, "protocol    = \"-1\"");
    IndentedPlain(4, "cidr_blocks = [\"0.0.0.0/0\"]");
    AttrPlain("}", "");
  }

  lemma SecurityGroupBodyUnmarked(p: Provider, n: string)
    ensures Unmarked(SecurityGroupBody(p, n))
  {
    AttrPlain("name", "        = \"main-sg-" + n + "\"");
    AttrPlain("description", " = \"Groupe de sécurité principal " + n + "\"");
    VpcIdPlain("      = " + ProviderName(p) + "_vpc.main.id");
    AttrPlain("", "");
    IngressRuleUnmarked("HTTP", "80");
    IngressRuleUnmarked("HTTPS", "443");
    EgressRuleUnmarked();
    TagLinesUnmarked("main-sg-" + n);
    var gap := [Attr("", "")];
    UnmarkedAppend(SecurityGroupSettings(p, n), IngressRule("HTTP", "80"));
    UnmarkedAppend(SecurityGroupSettings(p, n) + IngressRule("HTTP", "80"), gap);
    UnmarkedAppend(SecurityGroupSettings(p, n) + IngressRule("HTTP", "80") + gap, IngressRule("HTTPS", "443"));
    UnmarkedAppend(SecurityGroupSettings(p, n) + IngressRule("HTTP", "80") + gap + IngressRule("HTTPS", "443"), gap);
    UnmarkedAppend(SecurityGroupSettings(p, n) + IngressRule("HTTP", "80") + gap + IngressRule("HTTPS", "443") + gap, EgressRule());
    UnmarkedAppend(SecurityGroupSettings(p, n) + IngressRule("HTTP", "80") + gap + IngressRule("HTTPS", "443") + gap + EgressRule(), gap);
    UnmarkedAppend(SecurityGroupSettings(p, n) + IngressRule("HTTP", "80") + gap + IngressRule("HTTPS", "443") + gap + EgressRule() + gap, TagLines("main-sg-" + n));
  }

  lemma ServerSettingsUnmarked(p: Provider)
    ensures Unmarked(ServerSettings(p))
  {
    AttrPlain("ami", "           = \"ami-0c55b159cbfafe1f0\"  # Amazon Linux 2");
    AttrPlain("instance_type", " = \"t2.micro\"");
    AttrPlain("subnet_id", "     = " + ProviderName(p) + "_subnet.public.id");
    AttrPlain("", "");
  }

  lemma ServerTailUnmarked(n: string)
    ensures Unmarked(ServerTail(n))
  {
    AttrPlain("", "");
    TagLinesUnmarked("server-" + n);
    UnmarkedAppend([Attr("", "")], TagLines("server-" + n));
  }

  lemma DatabaseSettingsUnmarked(n: string)
    ensures Unmarked(DatabaseSettings(n))
  {
    var t := DatabaseSettings(n);
    forall i | 0 <= i < |t|
      ensures Plain(t[i])
    {
      if i == 0 { AttrPlain("identifier", "     = \"db-" + n + "\""); }
      else if i == 1 { AttrPlain("engine", "         = \"mysql\""); }
      else if i == 2 { AttrPlain("engine_version", " = \"8.0\""); }
      else if i == 3 { AttrPlain("instance_class", " = \"db.t2.micro\""); }
      else if i == 4 { AttrPlain("allocated_storage", " = 20"); }
      else if i == 5 { AttrPlain("storage_type", "   = \"gp2\""); }
      else if i == 6 || i == 10 { AttrPlain("", ""); }
      else if i == 7 { AttrPlain("db_name", "  = \"mydb\""); }
      else if i == 8 { AttrPlain("username", " = \"admin\""); }
      else { AttrPlain("password", " = \"ChangeMe123!\"  # À changer en production"); }
    }
  }

  lemma DatabaseTailUnmarked(n: string)
    ensures Unmarked(DatabaseTail(n))
  {
    AttrPlain("", "");
    AttrPlain("backup_retention_period", " = 7");
    AttrPlain("backup_window", "          = \"03:00-04:00\"");
    AttrPlain("maintenance_window", "     = \"mon:04:00-mon:05:00\"");
    TagLinesUnmarked("database-" + n);
    UnmarkedAppend(DatabaseBackup(), TagLines("database-" + n));
  }

  // ---------------------------------------------------------------------------
  // The marked lines of each section
  // ---------------------------------------------------------------------------

  lemma SelectCons(line: string, rest: seq<string>, prefix: string)
    ensures Select([line] + rest, prefix)
         == (if StartsWith(line, prefix) then [line] else []) + Select(rest, prefix)
  {
    assert ([line] + rest)[1..] == rest;
  }

  /** A single marked line between two unmarked runs is all `Select` finds there. */
  lemma SelectAround(a: seq<string>, line: string, b: seq<string>, prefix: string)
    requires Unmarked(a) && Unmarked(b)
    requires prefix == ResourcePrefix || prefix == OutputPrefix || prefix == SecurityGroupRefPrefix
    ensures Select(a + [line] + b, prefix) == (if StartsWith(line, prefix) then [line] else [])
  {
    UnmarkedSelect(a);
    UnmarkedSelect(b);
    SelectAppend(a + [line], b, prefix);
    SelectAppend(a, [line], prefix);
    SelectCons(line, [], prefix);
    assert [line] + [] == [line];
  }

  /** Two marked lines, each between two unmarked runs. */
  lemma SelectTwoAround(a: seq<string>, x: string, b: seq<string>,
                        c: seq<string>, y: string, d: seq<string>, prefix: string)
    requires Unmarked(a) && Unmarked(b) && Unmarked(c) && Unmarked(d)
    requires prefix == ResourcePrefix || prefix == OutputPrefix || prefix == SecurityGroupRefPrefix
    ensures Select(a + [x] + b + (c + [y] + d), prefix)
         == (if StartsWith(x, prefix) then [x] else []) + (if StartsWith(y, prefix) then [y] else [])
  {
    SelectAround(a, x, b, prefix);
    SelectAround(c, y, d, prefix);
    SelectAppend(a + [x] + b, c + [y] + d, prefix);
  }

  lemma SecurityGroupRefMarked(p: Provider)
    ensures StartsWith(SecurityGroupRef(p), SecurityGroupRefPrefix)
    ensures !StartsWith(SecurityGroupRef(p), ResourcePrefix)
    ensures !StartsWith(SecurityGroupRef(p), OutputPrefix)
  {
    var line := SecurityGroupRef(p);
    DiffersAt(line, ResourcePrefix, 0);
    DiffersAt(line, OutputPrefix, 0);
  }

  lemma BlockHeaderMarked(k: Kind, p: Provider, index: nat)
    ensures StartsWith(BlockHeader(k, p, index), ResourcePrefix)
    ensures !StartsWith(BlockHeader(k, p, index), OutputPrefix)
    ensures !StartsWith(BlockHeader(k, p, index), SecurityGroupRefPrefix)
  {
    var n := Decimal(index);
    match k
    case SecurityGroup => ResourceMarked(ProviderName(p) + "_security_group", "main_" + n);
    case Server => ResourceMarked(ProviderName(p) + "_instance", "server_" + n);
    case Database => ResourceMarked(ProviderName(p) + "_db_instance", "database_" + n);
  }

  lemma BlockCommentPlain(k: Kind, index: nat)
    ensures Plain(BlockComment(k, index))
  {
    var n := Decimal(index);
    match k
    case SecurityGroup => CommentPlain(" Groupe de sécurité " + n);
    case Server => CommentPlain(" Serveur " + n);
    case Database => CommentPlain(" Base de données " + n);
  }

  lemma BlockHeadSelect(k: Kind, p: Provider, index: nat, prefix: string)
    requires prefix == ResourcePrefix || prefix == OutputPrefix || prefix == SecurityGroupRefPrefix
    ensures var h := BlockHeader(k, p, index);
      Select([BlockComment(k, index), h], prefix) == if StartsWith(h, prefix) then [h] else []
  {
    var c := BlockComment(k, index);
    var h := BlockHeader(k, p, index);
    var e: seq<string> := [];
    BlockCommentPlain(k, index);
    SelectAround([c], h, e, prefix);
    assert [c] + [h] + e == [c, h];
  }

  /** What `Select` finds in the body of a block: the security-group reference,
      when the block has one, and nothing else. */
  lemma BlockBodySelect(k: Kind, p: Provider, n: string)
    ensures Select(BlockBody(k, p, n), ResourcePrefix) == []
    ensures Select(BlockBody(k, p, n), OutputPrefix) == []
    ensures Select(BlockBody(k, p, n), SecurityGroupRefPrefix)
         == if k == SecurityGroup then [] else [SecurityGroupRef(p)]
  {
    match k
    case SecurityGroup => GroupBodySelect(p, n);
    case Server => ServerBodySelect(p, n);
    case Database => DatabaseBodySelect(p, n);
  }

  lemma GroupBodySelect(p: Provider, n: string)
    ensures Select(BlockBody(SecurityGroup, p, n), ResourcePrefix) == []
    ensures Select(BlockBody(SecurityGroup, p, n), OutputPrefix) == []
    ensures Select(BlockBody(SecurityGroup, p, n), SecurityGroupRefPrefix) == []
  {
    SecurityGroupBodyUnmarked(p, n);
    UnmarkedSelect(SecurityGroupBody(p, n));
  }

  lemma ServerBodySelect(p: Provider, n: string)
    ensures Select(BlockBody(Server, p, n), ResourcePrefix) == []
    ensures Select(BlockBody(Server, p, n), OutputPrefix) == []
    ensures Select(BlockBody(Server, p, n), SecurityGroupRefPrefix) == [SecurityGroupRef(p)]
  {
    ServerSettingsUnmarked(p);
    ServerTailUnmarked(n);
    SecurityGroupRefMarked(p);
    SelectAround(ServerSettings(p), SecurityGroupRef(p), ServerTail(n), ResourcePrefix);
    SelectAround(ServerSettings(p), SecurityGroupRef(p), ServerTail(n), OutputPrefix);
    SelectAround(ServerSettings(p), SecurityGroupRef(p), ServerTail(n), SecurityGroupRefPrefix);
  }

  lemma DatabaseBodySelect(p: Provider, n: string)
    ensures Select(BlockBody(Database, p, n), ResourcePrefix) == []
    ensures Select(BlockBody(Database, p, n), OutputPrefix) == []
    ensures Select(BlockBody(Database, p, n), SecurityGroupRefPrefix) == [SecurityGroupRef(p)]
  {
    DatabaseSettingsUnmarked(n);
    DatabaseTailUnmarked(n);
    SecurityGroupRefMarked(p);
    SelectAround(DatabaseSettings(n), SecurityGroupRef(p), DatabaseTail(n), ResourcePrefix);
    SelectAround(DatabaseSettings(n), SecurityGroupRef(p), DatabaseTail(n), OutputPrefix);
    SelectAround(DatabaseSettings(n), SecurityGroupRef(p), DatabaseTail(n), SecurityGroupRefPrefix);
  }

  /** Block `index` opens exactly one resource, its own; an instance or database
      block holds exactly one security-group reference, a security-group block none. */
  lemma BlockMarkers(k: Kind, p: Provider, index: nat)
    ensures Select(BlockLines(k, p, index), ResourcePrefix) == [BlockHeader(k, p, index)]
    ensures Select(BlockLines(k, p, index), SecurityGroupRefPrefix)
         == if k == SecurityGroup then [] else [SecurityGroupRef(p)]
    ensures Select(BlockLines(k, p, index), OutputPrefix) == []
  {
    var head := [BlockComment(k, index), BlockHeader(k, p, index)];
    var body := BlockBody(k, p, Decimal(index));
    BlockHeaderMarked(k, p, index);
    BlockHeadSelect(k, p, index, ResourcePrefix);
    BlockHeadSelect(k, p, index, SecurityGroupRefPrefix);
    BlockHeadSelect(k, p, index, OutputPrefix);
    BlockBodySelect(k, p, Decimal(index));
    SelectAppend(head, body, ResourcePrefix);
    SelectAppend(head, body, SecurityGroupRefPrefix);
    SelectAppend(head, body, OutputPrefix);
  }

  lemma OutputHeaderMarked(name: string)
    ensures StartsWith(OutputHeader(name), OutputPrefix)
    ensures !StartsWith(OutputHeader(name), ResourcePrefix)
    ensures !StartsWith(OutputHeader(name), SecurityGroupRefPrefix)
  {
    DiffersAt(OutputHeader(name), ResourcePrefix, 0);
    DiffersAt(OutputHeader(name), SecurityGroupRefPrefix, 0);
  }

  lemma OutputValueUnmarked(value: string)
    ensures Unmarked(OutputValue(value))
  {
    AttrPlain("value", " = " + value);
    TopPlain("}");
  }

  /** The network section opens the VPC, then the subnet, and holds no other marker. */
  lemma NetworkMarkers(p: Provider)
    ensures Select(NetworkLines(p), ResourcePrefix) == [VpcHeader(p), SubnetHeader(p)]
    ensures Select(NetworkLines(p), SecurityGroupRefPrefix) == []
    ensures Select(NetworkLines(p), OutputPrefix) == []
  {
    CommentPlain(" Réseau VPC");
    CommentPlain(" Subnet public");
    ResourceMarked(ProviderName(p) + "_vpc", "main");
    ResourceMarked(ProviderName(p) + "_subnet", "public");
    VpcBodyUnmarked();
    SubnetBodyUnmarked(p);
    var vpc := [Comment(" Réseau VPC")];
    var subnet := [Comment(" Subnet public")];
    SelectTwoAround(vpc, VpcHeader(p), VpcBody(), subnet, SubnetHeader(p), SubnetBody(p), ResourcePrefix);
    SelectTwoAround(vpc, VpcHeader(p), VpcBody(), subnet, SubnetHeader(p), SubnetBody(p), SecurityGroupRefPrefix);
    SelectTwoAround(vpc, VpcHeader(p), VpcBody(), subnet, SubnetHeader(p), SubnetBody(p), OutputPrefix);
  }

  /** The outputs section declares the VPC output, then the subnet output, and
      opens no resource. */
  lemma OutputMarkers(p: Provider)
    ensures Select(OutputLines(p), OutputPrefix) == [OutputHeader("vpc_id"), OutputHeader("public_subnet_id")]
    ensures Select(OutputLines(p), ResourcePrefix) == []
    ensures Select(OutputLines(p), SecurityGroupRefPrefix) == []
  {
    var first := [Comment(" Outputs")];
    var gap := [""];
    var vpc := OutputValue(ProviderName(p) + "_vpc.main.id");
    var subnet := OutputValue(ProviderName(p) + "_subnet.public.id");
    CommentPlain(" Outputs");
    TopPlain("");
    OutputValueUnmarked(ProviderName(p) + "_vpc.main.id");
    OutputValueUnmarked(ProviderName(p) + "_subnet.public.id");
    OutputHeaderMarked("vpc_id");
    OutputHeaderMarked("public_subnet_id");
    var h1 := OutputHeader("vpc_id");
    var h2 := OutputHeader("public_subnet_id");
    SelectTwoAround(first, h1, vpc, gap, h2, subnet, OutputPrefix);
    SelectTwoAround(first, h1, vpc, gap, h2, subnet, ResourcePrefix);
    SelectTwoAround(first, h1, vpc, gap, h2, subnet, SecurityGroupRefPrefix);
  }

  /** The headers of blocks 1 .. count of kind `k`, in increasing order. */
  function Headers(k: Kind, p: Provider, count: nat): (r: seq<string>)
    ensures |r| == count
  {
    seq(count, i requires 0 <= i < count => BlockHeader(k, p, i + 1))
  }

  /** `count` references to security group `main_1`. */
  function References(p: Provider, count: nat): (r: seq<string>)
    ensures |r| == count
  {
    seq(count, _ => SecurityGroupRef(p))
  }

  /** Selecting from repeated blocks selects block by block. */
  lemma {:induction false} RepeatSelect(block: nat -> seq<string>, count: nat, prefix: string, marked: nat -> string)
    requires forall i :: 1 <= i <= count ==> Select(block(i), prefix) == [marked(i)]
    ensures Select(Repeat(block, count), prefix) == seq(count, i requires 0 <= i < count => marked(i + 1))
  {
    if count > 0 {
      RepeatSelect(block, count - 1, prefix, marked);
      SelectAppend(Repeat(block, count - 1), block(count), prefix);
    }
  }

  lemma {:induction false} RepeatSelectNone(block: nat -> seq<string>, count: nat, prefix: string)
    requires forall i :: 1 <= i <= count ==> Select(block(i), prefix) == []
    ensures Select(Repeat(block, count), prefix) == []
  {
    if count > 0 {
      RepeatSelectNone(block, count - 1, prefix);
      SelectAppend(Repeat(block, count - 1), block(count), prefix);
    }
  }

  lemma EveryBlockResource(k: Kind, p: Provider)
    ensures forall i: nat :: Select(BlockFn(k, p)(i), ResourcePrefix) == [BlockHeader(k, p, i)]
  {
    forall i: nat
      ensures Select(BlockFn(k, p)(i), ResourcePrefix) == [BlockHeader(k, p, i)]
    {
      BlockMarkers(k, p, i);
    }
  }

  lemma EveryBlockReference(k: Kind, p: Provider)
    ensures forall i: nat :: Select(BlockFn(k, p)(i), SecurityGroupRefPrefix)
                             == if k == SecurityGroup then [] else [SecurityGroupRef(p)]
  {
    forall i: nat
      ensures Select(BlockFn(k, p)(i), SecurityGroupRefPrefix)
           == if k == SecurityGroup then [] else [SecurityGroupRef(p)]
    {
      BlockMarkers(k, p, i);
    }
  }

  lemma EveryBlockOutput(k: Kind, p: Provider)
    ensures forall i: nat :: Select(BlockFn(k, p)(i), OutputPrefix) == []
  {
    forall i: nat
      ensures Select(BlockFn(k, p)(i), OutputPrefix) == []
    {
      BlockMarkers(k, p, i);
    }
  }

  /** Blocks 1 .. count open one resource each, in order. */
  lemma BlocksResources(k: Kind, p: Provider, count: nat)
    ensures Select(Blocks(k, p, count), ResourcePrefix) == Headers(k, p, count)
  {
    EveryBlockResource(k, p);
    RepeatSelect(BlockFn(k, p), count, ResourcePrefix, (i: nat) => BlockHeader(k, p, i));
  }

  /** Every instance and database block references security group `main_1`, once;
      security-group blocks reference nothing. */
  lemma BlocksReferences(k: Kind, p: Provider, count: nat)
    ensures Select(Blocks(k, p, count), SecurityGroupRefPrefix)
         == References(p, if k == SecurityGroup then 0 else count)
  {
    EveryBlockReference(k, p);
    if k == SecurityGroup {
      RepeatSelectNone(BlockFn(k, p), count, SecurityGroupRefPrefix);
    } else {
      RepeatSelect(BlockFn(k, p), count, SecurityGroupRefPrefix, (_: nat) => SecurityGroupRef(p));
    }
  }

  /** Repeated blocks declare no output. */
  lemma BlocksOutputs(k: Kind, p: Provider, count: nat)
    ensures Select(Blocks(k, p, count), OutputPrefix) == []
  {
    EveryBlockOutput(k, p);
    RepeatSelectNone(BlockFn(k, p), count, OutputPrefix);
  }

  /** One `for i in range(count)` loop of the generator: appends blocks 1 .. count
      of kind `k` to `code`. */
  method AppendBlocks(code: string, k: Kind, p: Provider, count: nat) returns (result: string)
    ensures result == Appended(code, BlockFn(k, p), count)
  {
    result := code;
    var i := 0;
    while i < count
      invariant 0 <= i <= count
      invariant result == Appended(code, BlockFn(k, p), i)
    {
      result := result + Render(BlockLines(k, p, i + 1));
      i := i + 1;
    }
  }

  /** Appends the sections one after the other: header, network, then one loop per
      repeated kind, then the outputs. */
  method Generate(cfg: Config) returns (code: string)
    ensures code == Document(cfg)
  {
    var p := cfg.provider;
    code := Render(HeaderLines(p));
    if cfg.networks > 0 {
      code := code + Render(NetworkLines(p));
    } else {
      assert code + "" == code;
    }
    code := AppendBlocks(code, SecurityGroup, p, cfg.securityGroups);
    code := AppendBlocks(code, Server, p, cfg.servers);
    code := AppendBlocks(code, Database, p, cfg.databases);
    code := code + Render(OutputLines(p));
  }

  // ---------------------------------------------------------------------------
  // The document as a whole
  // ---------------------------------------------------------------------------

  lemma RenderSections(h: seq<string>, n: seq<string>, g: seq<string>,
                       s: seq<string>, d: seq<string>, o: seq<string>)
    ensures Render(h + n + g + s + d + o)
         == Render(h) + Render(n) + Render(g) + Render(s) + Render(d) + Render(o)
  {
    RenderAppend(h, n);
    RenderAppend(h + n, g);
    RenderAppend(h + n + g, s);
    RenderAppend(h + n + g + s, d);
    RenderAppend(h + n + g + s + d, o);
  }

  /** `Select` on the six sections of a document, given what it finds in each. */
  lemma SelectSections(h: seq<string>, n: seq<string>, g: seq<string>,
                       s: seq<string>, d: seq<string>, o: seq<string>, prefix: string,
                       hs: seq<string>, ns: seq<string>, gs: seq<string>,
                       ss: seq<string>, ds: seq<string>, os: seq<string>)
    requires Select(h, prefix) == hs && Select(n, prefix) == ns && Select(g, prefix) == gs
    requires Select(s, prefix) == ss && Select(d, prefix) == ds && Select(o, prefix) == os
    ensures Select(h + n + g + s + d + o, prefix) == hs + ns + gs + ss + ds + os
  {
    SelectAppend(h, n, prefix);
    SelectAppend(h + n, g, prefix);
    SelectAppend(h + n + g, s, prefix);
    SelectAppend(h + n + g + s, d, prefix);
    SelectAppend(h + n + g + s + d, o, prefix);
  }

  lemma RenderStep(text: string, before: seq<string>, last: seq<string>)
    ensures text + Render(before) + Render(last) == text + Render(before + last)
  {
    RenderAppend(before, last);
  }

  /** Appending the blocks one at a time gives the text of all of them. */
  lemma {:induction false} AppendedRender(text: string, block: nat -> seq<string>, count: nat)
    ensures Appended(text, block, count) == text + Render(Repeat(block, count))
  {
    if count == 0 {
      assert text + Render([]) == text;
    } else {
      AppendedRender(text, block, count - 1);
      RenderStep(text, Repeat(block, count - 1), block(count));
    }
  }

  /** The text the generator builds piece by piece is the rendering of the
      document's lines, section after section. */
  lemma DocumentRendered(cfg: Config)
    ensures Document(cfg) == Render(DocumentLines(cfg))
  {
    var p := cfg.provider;
    var network := if cfg.networks > 0 then NetworkLines(p) else [];
    var start := Render(HeaderLines(p)) + (if cfg.networks > 0 then Render(NetworkLines(p)) else "");
    assert start == Render(HeaderLines(p)) + Render(network);
    AppendedRender(start, BlockFn(SecurityGroup, p), cfg.securityGroups);
    var withGroups := Appended(start, BlockFn(SecurityGroup, p), cfg.securityGroups);
    AppendedRender(withGroups, BlockFn(Server, p), cfg.servers);
    var withServers := Appended(withGroups, BlockFn(Server, p), cfg.servers);
    AppendedRender(withServers, BlockFn(Database, p), cfg.databases);
    RenderSections(HeaderLines(p), network, Blocks(SecurityGroup, p, cfg.securityGroups),
                   Blocks(Server, p, cfg.servers), Blocks(Database, p, cfg.databases), OutputLines(p));
  }

  /** Drops the empty header and output sections from the resource headers; kept
      apart so that the document-level proof does not unfold the templates. */
  lemma ResourceSections(network: seq<string>, g: seq<string>, s: seq<string>, d: seq<string>)
    ensures [] + network + g + s + d + [] == network + g + s + d
  {
  }

  /** The resources the document declares, in order: the VPC and the subnet (when
      networks are asked for), security groups `main_1` .. `main_<sgs>`, instances
      `server_1` .. `server_<servers>`, databases `database_1` .. `database_<dbs>`. */
  lemma DocumentResources(cfg: Config)
    ensures var p := cfg.provider;
      Select(DocumentLines(cfg), ResourcePrefix)
      == (if cfg.networks > 0 then [VpcHeader(p), SubnetHeader(p)] else [])
       + Headers(SecurityGroup, p, cfg.securityGroups)
       + Headers(Server, p, cfg.servers)
       + Headers(Database, p, cfg.databases)
  {
    var p := cfg.provider;
    var network := if cfg.networks > 0 then NetworkLines(p) else [];
    var networkHeaders := if cfg.networks > 0 then [VpcHeader(p), SubnetHeader(p)] else [];
    HeaderUnmarked(p);
    UnmarkedSelect(HeaderLines(p));
    NetworkMarkers(p);
    BlocksResources(SecurityGroup, p, cfg.securityGroups);
    BlocksResources(Server, p, cfg.servers);
    BlocksResources(Database, p, cfg.databases);
    OutputMarkers(p);
    SelectSections(HeaderLines(p), network, Blocks(SecurityGroup, p, cfg.securityGroups),
                   Blocks(Server, p, cfg.servers), Blocks(Database, p, cfg.databases), OutputLines(p),
                   ResourcePrefix,
                   [], networkHeaders, Headers(SecurityGroup, p, cfg.securityGroups),
                   Headers(Server, p, cfg.servers), Headers(Database, p, cfg.databases), []);
    ResourceSections(networkHeaders, Headers(SecurityGroup, p, cfg.securityGroups),
                     Headers(Server, p, cfg.servers), Headers(Database, p, cfg.databases));
  }

  lemma ReferencesAppend(p: Provider, a: nat, b: nat)
    ensures References(p, a) + References(p, b) == References(p, a + b)
  {
  }

  /** The references of the six sections, joined: none, none, none, then one per
      instance and one per database. */
  lemma ReferenceSections(p: Provider, a: nat, b: nat)
    ensures [] + [] + References(p, 0) + References(p, a) + References(p, b) + [] == References(p, a + b)
  {
    ReferencesAppend(p, a, b);
  }

  /** The document holds one security-group reference per instance and per
      database, and each names group `main_1`. */
  lemma DocumentReferences(cfg: Config)
    ensures Select(DocumentLines(cfg), SecurityGroupRefPrefix)
         == References(cfg.provider, cfg.servers + cfg.databases)
  {
    var p := cfg.provider;
    var network := if cfg.networks > 0 then NetworkLines(p) else [];
    HeaderUnmarked(p);
    UnmarkedSelect(HeaderLines(p));
    NetworkMarkers(p);
    BlocksReferences(SecurityGroup, p, cfg.securityGroups);
    BlocksReferences(Server, p, cfg.servers);
    BlocksReferences(Database, p, cfg.databases);
    OutputMarkers(p);
    SelectSections(HeaderLines(p), network, Blocks(SecurityGroup, p, cfg.securityGroups),
                   Blocks(Server, p, cfg.servers), Blocks(Database, p, cfg.databases), OutputLines(p),
                   SecurityGroupRefPrefix,
                   [], [], References(p, 0), References(p, cfg.servers), References(p, cfg.databases), []);
    ReferenceSections(p, cfg.servers, cfg.databases);
  }

  /** The document declares exactly two outputs, the VPC id and then the subnet id,
      whether or not the network section is present. */
  lemma DocumentOutputs(cfg: Config)
    ensures Select(DocumentLines(cfg), OutputPrefix)
         == [OutputHeader("vpc_id"), OutputHeader("public_subnet_id")]
  {
    var p := cfg.provider;
    var network := if cfg.networks > 0 then NetworkLines(p) else [];
    var outputs := [OutputHeader("vpc_id"), OutputHeader("public_subnet_id")];
    HeaderUnmarked(p);
    UnmarkedSelect(HeaderLines(p));
    NetworkMarkers(p);
    BlocksOutputs(SecurityGroup, p, cfg.securityGroups);
    BlocksOutputs(Server, p, cfg.servers);
    BlocksOutputs(Database, p, cfg.databases);
    OutputMarkers(p);
    SelectSections(HeaderLines(p), network, Blocks(SecurityGroup, p, cfg.securityGroups),
                   Blocks(Server, p, cfg.servers), Blocks(Database, p, cfg.databases), OutputLines(p),
                   OutputPrefix, [], [], [], [], [], outputs);
    assert [] + [] + [] + [] + [] + outputs == outputs;
  }

  // ---------------------------------------------------------------------------
  // Names and references
  // ---------------------------------------------------------------------------

  /** Two resource headers of the same type are equal only if the names are. */
  lemma ResourceNameInjective(resourceType: string, name1: string, name2: string)
    requires Resource(resourceType, name1) == Resource(resourceType, name2)
    ensures name1 == name2
  {
    var front := ResourcePrefix + (resourceType + "\" \"");
    var r1 := Resource(resourceType, name1);
    var r2 := Resource(resourceType, name2);
    assert r1 == front + name1 + "\" {";
    assert r2 == front + name2 + "\" {";
    assert name1 == r1[|front|..|front| + |name1|];
    assert name2 == r2[|front|..|front| + |name2|];
  }

  lemma PrefixCancel(front: string, a: string, b: string)
    requires front + a == front + b
    ensures a == b
  {
    assert a == (front + a)[|front|..];
    assert b == (front + b)[|front|..];
  }

  /** Blocks of one kind with different numbers have different headers. */
  lemma BlockHeaderInjective(k: Kind, p: Provider, a: nat, b: nat)
    requires a != b
    ensures BlockHeader(k, p, a) != BlockHeader(k, p, b)
  {
    DecimalInjective(a, b);
    if BlockHeader(k, p, a) == BlockHeader(k, p, b) {
      var m, n := Decimal(a), Decimal(b);
      match k
      case SecurityGroup =>
        ResourceNameInjective(ProviderName(p) + "_security_group", "main_" + m, "main_" + n);
        PrefixCancel("main_", m, n);
      case Server =>
        ResourceNameInjective(ProviderName(p) + "_instance", "server_" + m, "server_" + n);
        PrefixCancel("server_", m, n);
      case Database =>
        ResourceNameInjective(ProviderName(p) + "_db_instance", "database_" + m, "database_" + n);
        PrefixCancel("database_", m, n);
    }
  }

  lemma HeaderAt(k: Kind, p: Provider, count: nat, i: nat)
    requires i < count
    ensures Headers(k, p, count)[i] == BlockHeader(k, p, i + 1)
  {
  }

  /** No two repeated blocks of a kind declare the same resource. */
  lemma HeadersDistinct(k: Kind, p: Provider, count: nat)
    ensures forall i, j :: 0 <= i < j < count ==> Headers(k, p, count)[i] != Headers(k, p, count)[j]
  {
    var headers := Headers(k, p, count);
    forall i, j | 0 <= i < j < count
      ensures headers[i] != headers[j]
    {
      HeaderAt(k, p, count, i);
      HeaderAt(k, p, count, j);
      BlockHeaderInjective(k, p, i + 1, j + 1);
    }
  }

  /** The reference instances and databases carry names the type and name that
      the header of security group 1 declares. */
  lemma ReferenceNamesFirstGroup(p: Provider)
    ensures exists resourceType, name ::
      (BlockHeader(SecurityGroup, p, 1) == Resource(resourceType, name)
       && SecurityGroupRef(p) == SecurityGroupRefPrefix + (resourceType + "." + name + ".id]"))
  {
    var resourceType := ProviderName(p) + "_security_group";
    assert "main_" + Decimal(1) == "main_1";
    assert BlockHeader(SecurityGroup, p, 1) == Resource(resourceType, "main_1");
  }

  /** A document with at least one security group declares group 1, the one every
      reference names. */
  lemma DocumentDeclaresFirstGroup(cfg: Config)
    requires cfg.securityGroups >= 1
    ensures BlockHeader(SecurityGroup, cfg.provider, 1) in Select(DocumentLines(cfg), ResourcePrefix)
  {
    var p := cfg.provider;
    var networkHeaders := if cfg.networks > 0 then [VpcHeader(p), SubnetHeader(p)] else [];
    var groups := Headers(SecurityGroup, p, cfg.securityGroups);
    DocumentResources(cfg);
    assert groups[0] == BlockHeader(SecurityGroup, p, 1);
    assert (networkHeaders + groups)[|networkHeaders|] == groups[0];
  }
}
