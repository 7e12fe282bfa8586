/**
 * File types, key mapping and the three line grammars
 * (src/createEnvfile.ts): `.env` lines `K=V`, `.envrc` lines `export K=V`,
 * `terraform.tfvars` lines `K = "V"`, each followed by a newline.
 */
module EnvFormat {
  import opened Wrappers
  import opened Strings
  import opened Records

  /** The `EnvFileType` enum; each member's value is its default file name. */
  datatype FileType = DotEnv | Direnv | Terraform

  function FileName(t: FileType): string {
    match t
    case DotEnv => ".env"
    case Direnv => ".envrc"
    case Terraform => "terraform.tfvars"
  }

  /** `isAllowedFileType`: the switch over the three enum values. */
  function IsAllowedFileType(fileType: string): (r: bool)
    ensures r <==> fileType == FileName(DotEnv) || fileType == FileName(Direnv) || fileType == FileName(Terraform)
  {
    match fileType
    case ".env" => true
    case ".envrc" => true
    case "terraform.tfvars" => true
    case _ => false
  }

  /** A type string is accepted exactly when it is the value of one of the enum members. */
  lemma AllowedIffFileName(fileType: string)
    ensures IsAllowedFileType(fileType) <==> exists t :: FileName(t) == fileType
  {
    if IsAllowedFileType(fileType) {
      var t := if fileType == ".env" then DotEnv else if fileType == ".envrc" then Direnv else Terraform;
      assert FileName(t) == fileType;
    }
  }

  /** The enum member an accepted type string is the value of. */
  function FileTypeOf(fileType: string): (t: FileType)
    requires IsAllowedFileType(fileType)
    ensures FileName(t) == fileType
  {
    match fileType
    case ".env" => DotEnv
    case ".envrc" => Direnv
    case _ => Terraform
  }

  /**
   * `keyMapping && keyMapping[key] ? keyMapping[key] : key`: a mapped key is
   * used only when its mapping is a non-empty string.
   */
  function EmittedKey(key: string, keyMapping: Option<map<string, string>>): (r: string)
    ensures keyMapping.Some? && key in keyMapping.value && keyMapping.value[key] != "" ==> r == keyMapping.value[key]
    ensures keyMapping.None? || key !in keyMapping.value || keyMapping.value[key] == "" ==> r == key
    ensures key != "" ==> r != ""
  {
    if keyMapping.Some? && key in keyMapping.value && keyMapping.value[key] != "" then keyMapping.value[key]
    else key
  }

  /** A line of type `t` ends in a newline, and an `.envrc` line starts with `export `. */
  predicate Framed(t: FileType, line: string) {
    |line| > 0 && line[|line| - 1] == '\n' && (t == Direnv ==> |line| > 7 && line[..7] == "export ")
  }

  /** The line appended for one entry. */
  function Line(t: FileType, key: string, text: string): (r: string)
    ensures Framed(t, r)
  {
    match t
    case DotEnv => key + "=" + text + "\n"
    case Direnv => "export " + key + "=" + text + "\n"
    case Terraform => key + " = \"" + text + "\"\n"
  }

  /** Lines of the `.env` unit tests, as a line reader sees them (without the newline). */
  lemma DotEnvTestedLines()
    ensures Line(DotEnv, "SECRET_CODE", "dev/app") == "SECRET_CODE=dev/app" + "\n"
    ensures Line(DotEnv, "AWS_API_KEY", "another_api_key") == "AWS_API_KEY=another_api_key" + "\n"
  {
  }

  /** Lines of the `.envrc` unit tests. */
  lemma DirenvTestedLines()
    ensures Line(Direnv, "SECRET_ID", "dev/app") == "export SECRET_ID=dev/app" + "\n"
    ensures Line(Direnv, "APP_URL", "http://localhost/3000") == "export APP_URL=http://localhost/3000" + "\n"
  {
  }

  /** Lines of the `terraform.tfvars` unit tests. */
  lemma TerraformTestedLines()
    ensures Line(Terraform, "SECRET_ID", "dev/app") == "SECRET_ID = \"dev/app\"" + "\n"
    ensures Line(Terraform, "ANOTHER_API_KEY", "another_api_key") == "ANOTHER_API_KEY = \"another_api_key\"" + "\n"
  {
  }

  /** One line per entry, in order, with the key mapped and the value stringified. */
  function RenderEntries(t: FileType, es: seq<Entry>, keyMapping: Option<map<string, string>>): (r: seq<string>)
    ensures |r| == |es|
  {
    seq(|es|, i requires 0 <= i < |es| => Line(t, EmittedKey(es[i].0, keyMapping), ValueToString(es[i].1)))
  }

  /** The lines of a list of records, record after record. */
  function RenderRecords(t: FileType, rs: seq<Record>, keyMapping: Option<map<string, string>>): seq<string> {
    RenderEntries(t, Flatten(rs), keyMapping)
  }

  lemma RenderEntriesAppend(t: FileType, a: seq<Entry>, b: seq<Entry>, keyMapping: Option<map<string, string>>)
    ensures RenderEntries(t, a + b, keyMapping) == RenderEntries(t, a, keyMapping) + RenderEntries(t, b, keyMapping)
  {
  }

  lemma RenderRecordsAppend(t: FileType, a: seq<Record>, b: seq<Record>, keyMapping: Option<map<string, string>>)
    ensures RenderRecords(t, a + b, keyMapping) == RenderRecords(t, a, keyMapping) + RenderRecords(t, b, keyMapping)
  {
    FlattenAppend(a, b);
    RenderEntriesAppend(t, Flatten(a), Flatten(b), keyMapping);
  }

  // ---- reading a line back, as a downstream dotenv loader, shell or Terraform would ----

  /** `key` can be read back from a line of type `t`: no `=` for the shell grammars, no space for Terraform. */
  predicate KeyReadable(t: FileType, key: string) {
    if t == Terraform then ' ' !in key else '=' !in key
  }

  /** `name=value`, split at the first `=`. */
  function SplitAssignment(body: string): Option<(string, string)> {
    match IndexOf(body, "=")
    case None => None
    case Some(i) => Some((body[..i], body[i + 1..]))
  }

  /** The key and value text of one line of type `t`, if it has that grammar. */
  function ParseLine(t: FileType, line: string): Option<(string, string)> {
    if |line| == 0 || line[|line| - 1] != '\n' then None
    else
      var body := line[..|line| - 1];
      match t
      case DotEnv => SplitAssignment(body)
      case Direnv =>
        if |body| >= 7 && body[..7] == "export " then SplitAssignment(body[7..]) else None
      case Terraform =>
        match IndexOf(body, " ")
        case None => None
        case Some(i) =>
          if i + 5 <= |body| && body[i..i + 4] == " = \"" && body[|body| - 1] == '"'
          then Some((body[..i], body[i + 4..|body| - 1]))
          else None
  }

  /** In `a + [c] + b` with `c` not in `a`, the first `c` is at `|a|`. */
  lemma FirstSeparator(a: string, c: char, b: string)
    requires c !in a
    ensures IndexOf(a + [c] + b, [c]) == Some(|a|)
  {
    var s := a + [c] + b;
    assert OccursAt(s, [c], |a|) by { assert s[|a|..|a| + 1] == [c]; }
    forall j | 0 <= j < |a| ensures !OccursAt(s, [c], j) {
      assert s[j..j + 1][0] == a[j];
    }
  }

  /** `key=text` splits back into `key` and `text` when `key` has no `=`. */
  lemma SplitAssignmentRoundTrip(key: string, text: string)
    requires '=' !in key
    ensures SplitAssignment(key + "=" + text) == Some((key, text))
  {
    var body := key + "=" + text;
    assert body == key + ['='] + text;
    FirstSeparator(key, '=', text);
    assert body[..|key|] == key && body[|key| + 1..] == text;
  }

  lemma DirenvRoundTrip(key: string, text: string)
    requires '=' !in key
    ensures ParseLine(Direnv, Line(Direnv, key, text)) == Some((key, text))
  {
    var line := Line(Direnv, key, text);
    var rest := key + "=" + text;
    assert line[..|line| - 1] == "export " + rest;
    assert ("export " + rest)[7..] == rest;
    SplitAssignmentRoundTrip(key, text);
  }

  lemma TerraformRoundTrip(key: string, text: string)
    requires ' ' !in key
    ensures ParseLine(Terraform, Line(Terraform, key, text)) == Some((key, text))
  {
    var line := Line(Terraform, key, text);
    var tail := "= \"" + text + "\"";
    var body := key + [' '] + tail;
    assert line == body + "\n";
    assert line[..|line| - 1] == body;
    FirstSeparator(key, ' ', tail);
    assert body[|key|..|key| + 4] == " = \"";
    assert body[..|key|] == key;
    assert body[|key| + 4..|body| - 1] == text;
  }

  /** Every rendered line reads back as the key and value text it was built from. */
  lemma LineRoundTrip(t: FileType, key: string, text: string)
    requires KeyReadable(t, key)
    ensures ParseLine(t, Line(t, key, text)) == Some((key, text))
  {
    match t
    case DotEnv =>
      var line := Line(DotEnv, key, text);
      assert line[..|line| - 1] == key + "=" + text;
      SplitAssignmentRoundTrip(key, text);
    case Direnv => DirenvRoundTrip(key, text);
    case Terraform => TerraformRoundTrip(key, text);
  }

  /**
   * Keys and values are written unescaped: a chunk is one physical line of the
   * file exactly when neither its key nor its value text holds a newline.
   */
  lemma OnePhysicalLine(t: FileType, key: string, text: string)
    ensures Line(t, key, text)[|Line(t, key, text)| - 1] == '\n'
    ensures ('\n' !in key && '\n' !in text)
        <==> forall j :: 0 <= j < |Line(t, key, text)| - 1 ==> Line(t, key, text)[j] != '\n'
  {
    var line := Line(t, key, text);
    var k := match t case Direnv => 7 case _ => 0;
    var v := match t case DotEnv => |key| + 1 case Direnv => |key| + 8 case Terraform => |key| + 4;
    assert line[k..k + |key|] == key;
    assert line[v..v + |text|] == text;
    if '\n' in key {
      var j :| 0 <= j < |key| && key[j] == '\n';
      assert line[k + j] == '\n';
    }
    if '\n' in text {
      var j :| 0 <= j < |text| && text[j] == '\n';
      assert line[v + j] == '\n';
    }
  }

  /**
   * The file has one line per entry, and line `i` reads back as the `i`-th
   * entry's emitted key and value: nothing is merged, dropped or reordered.
   */
  lemma RenderedLine(t: FileType, rs: seq<Record>, keyMapping: Option<map<string, string>>, i: nat)
    requires i < |Flatten(rs)|
    requires KeyReadable(t, EmittedKey(Flatten(rs)[i].0, keyMapping))
    ensures |RenderRecords(t, rs, keyMapping)| == EntryCount(rs)
    ensures ParseLine(t, RenderRecords(t, rs, keyMapping)[i])
         == Some((EmittedKey(Flatten(rs)[i].0, keyMapping), ValueToString(Flatten(rs)[i].1)))
  {
    FlattenLength(rs);
    var e := Flatten(rs)[i];
    LineRoundTrip(t, EmittedKey(e.0, keyMapping), ValueToString(e.1));
  }
}
