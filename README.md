# Prompt generator: project selection and render context

This project models the core of `generate_prompt`, the function that turns a
knowledge file about software projects into a prompt for an AI assistant. It
starts from the already-decoded list of project records and covers three steps:

- **Selection.** The first record is the default. When a non-empty project name
  is given, the records are scanned in order and the first one whose `name`
  equals the name exactly is taken. When none matches, the first record is kept
  and no error is raised.
- **Template name.** The template file is the assistant type followed by
  `_prompt.md.j2`.
- **Render context.** The template is rendered with five bindings:
  `project_name`, `design_history`, `bug_reports`, `rules` and `prompts`. All
  five are taken from the selected record, unchanged.

`wrappers.dfy` holds `Option` and `Result`. `prompt_generator.dfy` holds module
`PromptGenerator`:

- `SelectProject` is the selection loop, with its early `break`. It is proved
  equal to the function `SelectSpec`, which is built on `FirstNamed`, a
  recursive search for the first record with a given name.
- The lemmas state the outcomes of selection: the default, the first match,
  the silent fallback, membership and exact matching.
- `GeneratePrompt` puts the three steps together. The template engine is a
  function parameter, and the engine may report that no template has the
  requested name.

The project list is a Dafny `seq`, which is an immutable value. The
selection cannot modify its input, and `SelectProject` has no `modifies`
clause.

Where the description of the system and the code disagree, the model follows
the code:

- An empty `projects` list raises Python's `IndexError` at `projects[0]`,
  not a dedicated data error. `GeneratePrompt` returns `Failure(NoProjects)`
  for it. This happens before any template is looked up.
- `generate_prompt` accepts any assistant type. Only the command line limits
  it to `copilot` and `claude`. An unknown type fails only when the template
  engine cannot find `<type>_prompt.md.j2`. That failure is
  `Failure(TemplateNotFound(name))`.

## Model

| member | source | states |
|---|---|---|
| `PromptGenerator.FirstNamed` | prompt_generator.py:12-15 | a record found by the scan is one of the given records and carries exactly the requested name |
| `PromptGenerator.FirstNamedIsLeast` | prompt_generator.py:12-15 | the scan finds the matching record of lowest index |
| `PromptGenerator.FirstNamedNone` | prompt_generator.py:12-15 | the scan finds nothing if and only if no record carries the name |
| `PromptGenerator.SelectProject` | prompt_generator.py:10-15 | the loop with its early `break` returns exactly the record `SelectSpec` describes (first match when a name is given, else the first record) |
| `PromptGenerator.SelectWithoutName` | prompt_generator.py:9-11 | with no name, or the empty name (falsy in Python), the first record is chosen |
| `PromptGenerator.SelectFirstMatch` | prompt_generator.py:11-15 | with a name, the record of lowest index that carries it is chosen, whatever its position |
| `PromptGenerator.SelectFallback` | prompt_generator.py:10-15 | with a name no record carries, the first record is chosen and nothing fails |
| `PromptGenerator.SelectIsMember` | prompt_generator.py:10-15 | the chosen record is always an element of the input list |
| `PromptGenerator.SelectExact` | prompt_generator.py:13 | the chosen record carries the requested name if and only if some record does; otherwise the choice is the first record |
| `PromptGenerator.SelectCaseSensitiveExample` | prompt_generator.py:13 | "alpha" does not match "Alpha" and falls back to the first record; "Beta" picks the second record |
| `PromptGenerator.TemplateName` | prompt_generator.py:17 | the template name is the assistant type followed by `_prompt.md.j2` |
| `PromptGenerator.TemplateNameInjective` | prompt_generator.py:17 | distinct assistant types name distinct templates |
| `PromptGenerator.RenderContext` | prompt_generator.py:18-24 | the context binds exactly the five names, each to the same-named field of the record (`project_name` to `name`) |
| `PromptGenerator.RenderContextInjective` | prompt_generator.py:18-24 | equal contexts come only from equal records, so no field is lost or altered |
| `PromptGenerator.GeneratePrompt` | prompt_generator.py:10-25 | an empty list fails with `NoProjects`; otherwise the result is the engine's rendering of the assistant's template with the selected record's context, or `TemplateNotFound` for that template name |

## Left out

- Opening and JSON-decoding the knowledge file, and the `KeyError` for a missing `"projects"` key (prompt_generator.py:6-8): file I/O and a parsing library. The model starts from the decoded list.
- Records missing one of the five keys, and non-string `name` values: these are shapes of the decoded JSON that the model's record type rules out. In the source a missing key raises `KeyError`.
- The four fields after `name` can hold any JSON value in the source. They are modelled as strings because the code passes them through without looking at them.
- The Jinja2 `Environment`, the `./templates` loader, `autoescape=False` and the rendered text (prompt_generator.py:16-18): these belong to a foreign templating library. `GeneratePrompt` takes the engine as a function parameter, and only the template name and the context it receives are modelled.
- The command line, including the `{copilot, claude}` restriction (prompt_generator.py:27-33): argument parsing is done by a library.
- Writing the output file and printing to standard output (prompt_generator.py:35-40): I/O.
- SelectProject: requires a non-empty list, because `projects[0]` fails on an empty one. That failure is modelled one level up, in `GeneratePrompt`.
