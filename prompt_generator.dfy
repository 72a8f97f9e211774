/**
  * The prompt generator: choose one project record out of the knowledge file's
  * list, name the template for the target assistant, and bind the record's
  * fields into the context the template is rendered with.
  *
  * Reading and decoding the knowledge file, the command line and writing the
  * output are outside this module; it starts from the decoded list of records.
  */
module PromptGenerator {
  import opened Wrappers

  /** One entry of the knowledge file's "projects" array. The four fields after
      the name are passed to the template verbatim and never inspected. */
  datatype ProjectRecord = ProjectRecord(
    name: string,
    designHistory: string,
    bugReports: string,
    rules: string,
    prompts: string)

  /** Why generating a prompt can fail. */
  datatype GenerateError =
    | NoProjects                     // `projects[0]` on an empty list
    | TemplateNotFound(name: string) // no template file with that name

  /** The template engine, which this model does not look inside: given a template
      name and the context, it yields the rendered text, or None when no template
      of that name can be loaded. */
  type Renderer = (string, map<string, string>) -> Option<string>

  // ---------------------------------------------------------------------------
  // Project selection
  // ---------------------------------------------------------------------------

  /** Python truthiness of the optional project name: absent and "" are both false. */
  predicate NameGiven(projectName: Option<string>)
  {
    projectName.Some? && projectName.value != ""
  }

  /** The first record, in list order, whose name is exactly `name`, if any. */
  function FirstNamed(projects: seq<ProjectRecord>, name: string): (r: Option<ProjectRecord>)
    ensures r.Some? ==> r.value in projects && r.value.name == name
  {
    if projects == [] then None
    else if projects[0].name == name then Some(projects[0])
    else FirstNamed(projects[1..], name)
  }

  /** The record the generator works on: the first record named `projectName`
      when a name is given and some record carries it, the first record otherwise. */
  function SelectSpec(projects: seq<ProjectRecord>, projectName: Option<string>): ProjectRecord
    requires |projects| > 0
  {
    if NameGiven(projectName) && FirstNamed(projects, projectName.value).Some? then
      FirstNamed(projects, projectName.value).value
    else
      projects[0]
  }

  /** The selection loop: start from the first record and, when a name is given,
      scan the list in order and stop at the first record with that exact name. */
  method SelectProject(projects: seq<ProjectRecord>, projectName: Option<string>)
    returns (project: ProjectRecord)
    requires |projects| > 0
    ensures project == SelectSpec(projects, projectName)
  {
    project := projects[0];
    if NameGiven(projectName) {
      var name := projectName.value;
      var i := 0;
      while i < |projects|
        invariant 0 <= i <= |projects|
        invariant project == projects[0]
        invariant FirstNamed(projects[i..], name) == FirstNamed(projects, name)
      {
        if projects[i].name == name {
          project := projects[i];
          break;
        }
        assert projects[i..][1..] == projects[i + 1..];
        i := i + 1;
      }
    }
  }

  /** A record with the requested name that no earlier record shares is what
      FirstNamed finds. */
  lemma {:induction false} FirstNamedIsLeast(projects: seq<ProjectRecord>, name: string, i: nat)
    requires i < |projects| && projects[i].name == name
    requires forall j :: 0 <= j < i ==> projects[j].name != name
    ensures FirstNamed(projects, name) == Some(projects[i])
  {
    if i > 0 {
      assert projects[0].name != name;
      FirstNamedIsLeast(projects[1..], name, i - 1);
    }
  }

  /** FirstNamed finds nothing exactly when no record carries the name. */
  lemma {:induction false} FirstNamedNone(projects: seq<ProjectRecord>, name: string)
    ensures FirstNamed(projects, name).None? <==>
            forall j :: 0 <= j < |projects| ==> projects[j].name != name
  {
    if projects != [] {
      FirstNamedNone(projects[1..], name);
      if projects[0].name != name {
        assert forall j :: 1 <= j < |projects| ==> projects[j] == projects[1..][j - 1];
      }
    }
  }

  /** Without a name, or with the empty name, the first record is chosen. */
  lemma SelectWithoutName(projects: seq<ProjectRecord>, projectName: Option<string>)
    requires |projects| > 0 && !NameGiven(projectName)
    ensures SelectSpec(projects, projectName) == projects[0]
  {
  }

  /** With a name, the matching record of lowest index is chosen, wherever it sits. */
  lemma SelectFirstMatch(projects: seq<ProjectRecord>, name: string, i: nat)
    requires name != ""
    requires i < |projects| && projects[i].name == name
    requires forall j :: 0 <= j < i ==> projects[j].name != name
    ensures SelectSpec(projects, Some(name)) == projects[i]
  {
    FirstNamedIsLeast(projects, name, i);
  }

  /** With a name no record carries, the first record is chosen; nothing fails. */
  lemma SelectFallback(projects: seq<ProjectRecord>, name: string)
    requires |projects| > 0
    requires forall j :: 0 <= j < |projects| ==> projects[j].name != name
    ensures SelectSpec(projects, Some(name)) == projects[0]
  {
  }

  /** The chosen record is always one of the records given. */
  lemma SelectIsMember(projects: seq<ProjectRecord>, projectName: Option<string>)
    requires |projects| > 0
    ensures SelectSpec(projects, projectName) in projects
  {
  }

  /** Matching is exact: the chosen record carries the requested name whenever any
      record does, and otherwise no record carries it and the first one is chosen.
      A name that differs only in letter case or surrounding blanks is no match. */
  lemma SelectExact(projects: seq<ProjectRecord>, name: string)
    requires |projects| > 0 && name != ""
    ensures (exists j :: 0 <= j < |projects| && projects[j].name == name) <==>
            SelectSpec(projects, Some(name)).name == name
    ensures SelectSpec(projects, Some(name)).name != name ==>
            SelectSpec(projects, Some(name)) == projects[0]
  {
    FirstNamedNone(projects, name);
  }

  /** An instance of exactness: asking for "alpha" among "Alpha" and "Beta" falls
      back to the first record, and asking for "Beta" picks the second. */
  lemma SelectCaseSensitiveExample()
    ensures var a := ProjectRecord("Alpha", "h", "b", "r", "p");
            var b := ProjectRecord("Beta", "h2", "b2", "r2", "p2");
            SelectSpec([a, b], Some("alpha")) == a && SelectSpec([a, b], Some("Beta")) == b
  {
  }

  // ---------------------------------------------------------------------------
  // Template name and render context
  // ---------------------------------------------------------------------------

  /** The fixed suffix that turns an assistant type into a template file name. */
  const TemplateSuffix: string := "_prompt.md.j2"

  /** The template file name for an assistant type: the type followed by the suffix. */
  function TemplateName(aiType: string): (r: string)
    ensures |r| == |aiType| + |TemplateSuffix|
    ensures r[..|aiType|] == aiType && r[|aiType|..] == TemplateSuffix
  {
    aiType + TemplateSuffix
  }

  /** Distinct assistant types name distinct templates. */
  lemma TemplateNameInjective(a: string, b: string)
    requires TemplateName(a) == TemplateName(b)
    ensures a == b
  {
  }

  /** The names the template sees, one per keyword argument of the render call. */
  const ContextKeys: set<string> :=
    {"project_name", "design_history", "bug_reports", "rules", "prompts"}

  /** The context the template is rendered with, drawn from one record. */
  function RenderContext(project: ProjectRecord): (ctx: map<string, string>)
    ensures ctx.Keys == ContextKeys
    ensures ctx["project_name"] == project.name
    ensures ctx["design_history"] == project.designHistory
    ensures ctx["bug_reports"] == project.bugReports
    ensures ctx["rules"] == project.rules
    ensures ctx["prompts"] == project.prompts
  {
    map["project_name" := project.name,
        "design_history" := project.designHistory,
        "bug_reports" := project.bugReports,
        "rules" := project.rules,
        "prompts" := project.prompts]
  }

  /** Nothing of the record is lost or altered on the way into the context:
      two records give the same context only when they are the same record. */
  lemma RenderContextInjective(p: ProjectRecord, q: ProjectRecord)
    requires RenderContext(p) == RenderContext(q)
    ensures p == q
  {
  }

  // ---------------------------------------------------------------------------
  // The whole generator
  // ---------------------------------------------------------------------------

  /** Select the record, then render the assistant's template with its context.
      An empty project list fails before any template is looked up. */
  method GeneratePrompt(aiType: string, projectName: Option<string>,
                        projects: seq<ProjectRecord>, render: Renderer)
    returns (r: Result<string, GenerateError>)
    ensures |projects| == 0 ==> r == Failure(NoProjects)
    ensures |projects| > 0 ==>
      var out := render(TemplateName(aiType), RenderContext(SelectSpec(projects, projectName)));
      r == if out.Some? then Success(out.value) else Failure(TemplateNotFound(TemplateName(aiType)))
  {
    if |projects| == 0 {
      return Failure(NoProjects);
    }
    var project := SelectProject(projects, projectName);
    var template := TemplateName(aiType);
    var out := render(template, RenderContext(project));
    if out.Some? {
      r := Success(out.value);
    } else {
      r := Failure(TemplateNotFound(template));
    }
  }
}
