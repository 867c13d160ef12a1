/** The simulated counter-party (backend/app/simulation/agent.py): a persona's system prompt and the message list
    for its next reply. Reading the persona file and the model call are inputs. */
module SimulationAgent {
  import opened Wrappers
  import opened Text
  import opened LlmBase

  /** `SupplierPersona` (backend/app/simulation/persona.py); the tone defaults to "professional" when loading. */
  datatype Persona = Persona(id: string, name: string, style: string, goals: seq<string>,
                             constraints: seq<string>, negotiationTone: string)

  /** `os.path.join(base, part)` on POSIX paths: an absolute part replaces the base; otherwise the two are joined
      with one "/" unless the base is empty or already ends with one. */
  function PathJoin(base: string, part: string): (r: string)
    ensures StartsWith(part, "/") ==> r == part
    ensures !StartsWith(part, "/") ==> StartsWith(r, base) && EndsWith(r, part)
    ensures !StartsWith(part, "/") && |base| > 0 && !EndsWith(base, "/") ==> |r| == |base| + 1 + |part| && r[|base|] == '/'
    ensures !StartsWith(part, "/") && (|base| == 0 || EndsWith(base, "/")) ==> |r| == |base| + |part|
  {
    if StartsWith(part, "/") then part
    else if |base| == 0 || EndsWith(base, "/") then base + part
    else base + "/" + part
  }

  /** `_load_persona`: the file `os.path.join(base, "<id>.yaml")` must exist; its parsed content is looked up in
      `files`. The id is not checked, so an absolute id names a file outside the base directory. */
  function LoadPersona(personaId: string, basePath: string, files: map<string, Persona>): (r: Result<Persona, string>)
    ensures var path := PathJoin(basePath, personaId + ".yaml");
            && (path in files <==> r.Success?)
            && (r.Success? ==> r.value == files[path])
            && (r.Failure? ==> r.error == "Persona " + personaId + " not found at " + path)
  {
    var path := PathJoin(basePath, personaId + ".yaml");
    if path !in files then Failure("Persona " + personaId + " not found at " + path)
    else Success(files[path])
  }

  /** A relative id is looked up in the base directory: the path is the base, a separator, and "<id>.yaml". */
  lemma RelativePersonaUnderBase(personaId: string, basePath: string, files: map<string, Persona>)
    requires |basePath| > 0 && !EndsWith(basePath, "/") && !StartsWith(personaId, "/")
    ensures LoadPersona(personaId, basePath, files).Success? <==> basePath + "/" + personaId + ".yaml" in files
  {
    var file := personaId + ".yaml";
    if |personaId| > 0 {
      assert file[..1] == personaId[..1];
    } else {
      assert file[..1] == ".";
    }
    assert !StartsWith(file, "/");
    assert PathJoin(basePath, file) == basePath + "/" + personaId + ".yaml";
  }

  /** An absolute id escapes the base directory: the file "<id>.yaml" is loaded whatever the base is. */
  lemma AbsolutePersonaIgnoresBase(personaId: string, basePath: string, files: map<string, Persona>)
    requires StartsWith(personaId, "/") && personaId + ".yaml" in files
    ensures LoadPersona(personaId, basePath, files) == Success(files[personaId + ".yaml"])
  {
    assert (personaId + ".yaml")[..1] == personaId[..1];
  }

  /** `f"- {item}"` for each item, in order. */
  function Bullets(items: seq<string>): (r: seq<string>)
    ensures |r| == |items|
    ensures forall i :: 0 <= i < |items| ==> r[i] == "- " + items[i]
  {
    seq(|items|, i requires 0 <= i < |items| => "- " + items[i])
  }

  const Greeting := "You are "
  const StyleLabel := ", a supplier representing a company.\nYour negotiation style is: "
  const ToneLabel := ".\nYour tone is: "
  const GoalsHeading := ".\n\nYour Goals:\n"

  /** The opening lines: name, style and tone. */
  function Opening(p: Persona): string {
    Greeting + p.name + StyleLabel + p.style + ToneLabel + p.negotiationTone + GoalsHeading
  }

  const ConstraintsHeading := "\n\nYour Constraints (Non-negotiable):\n"

  const Instructions :=
    "\n\nInstructions:\n1. Read the latest proposal from the buyer.\n2. If it meets your goals, accept it.\n"
    + "3. If it violates constraints, reject it firmly.\n4. Otherwise, counter-propose to move closer to your goals.\n"
    + "5. Keep responses concise (under 100 words) and purely conversational (do not output internal thought process unless asked).\n"

  /** `_build_system_prompt`. */
  function BuildSystemPrompt(p: Persona): (r: string)
    ensures EndsWith(r, Instructions)
  {
    Opening(p) + Join(Bullets(p.goals), "\n") + ConstraintsHeading + Join(Bullets(p.constraints), "\n") + Instructions
  }

  /** The prompt opens by telling the model who it is: "You are <name>". */
  lemma PromptOpensWithName(p: Persona)
    ensures StartsWith(BuildSystemPrompt(p), Greeting + p.name)
  {
    var goals := Join(Bullets(p.goals), "\n");
    var constraints := Join(Bullets(p.constraints), "\n");
    LayoutOffsets(Opening(p), goals, ConstraintsHeading, constraints, Instructions);
    FirstTwo(Greeting, p.name, StyleLabel, p.style, ToneLabel, p.negotiationTone, GoalsHeading);
    PrefixOfPrefix(BuildSystemPrompt(p), Opening(p), Greeting + p.name);
  }

  lemma PrefixOfPrefix(s: string, t: string, u: string)
    requires OccursAt(s, t, 0) && StartsWith(t, u)
    ensures StartsWith(s, u)
  {
    assert s[..|u|] == t[..|u|];
  }

  lemma FirstTwo(a: string, b: string, c: string, d: string, e: string, f: string, g: string)
    ensures StartsWith(a + b + c + d + e + f + g, a + b)
  {
    assert (a + b + c + d + e + f + g)[..|a + b|] == a + b;
  }

  /** The goals block follows the opening, and the constraints block follows the goals block. */
  lemma {:induction false} PromptLayout(p: Persona)
    ensures var goals := Join(Bullets(p.goals), "\n");
            var constraints := Join(Bullets(p.constraints), "\n");
            var prompt := BuildSystemPrompt(p);
            && OccursAt(prompt, goals, |Opening(p)|)
            && OccursAt(prompt, constraints, |Opening(p)| + |goals| + |ConstraintsHeading|)
  {
    var goals := Join(Bullets(p.goals), "\n");
    var constraints := Join(Bullets(p.constraints), "\n");
    LayoutOffsets(Opening(p), goals, ConstraintsHeading, constraints, Instructions);
  }

  lemma LayoutOffsets(a: string, b: string, c: string, d: string, e: string)
    ensures OccursAt(a + b + c + d + e, a, 0)
    ensures OccursAt(a + b + c + d + e, b, |a|)
    ensures OccursAt(a + b + c + d + e, d, |a| + |b| + |c|)
  {
    var s := a + b + c + d + e;
    assert s[..|a|] == a;
    assert s[|a|..|a| + |b|] == b;
    assert s[|a| + |b| + |c|..|a| + |b| + |c| + |d|] == d;
  }

  /** Each goal appears in the prompt as its own "- goal" line. */
  lemma PromptListsGoal(p: Persona, i: nat)
    requires i < |p.goals|
    ensures Contains(BuildSystemPrompt(p), "- " + p.goals[i])
  {
    var goals := Join(Bullets(p.goals), "\n");
    PromptLayout(p);
    JoinContainsPart(Bullets(p.goals), "\n", i);
    ContainsTransitive(BuildSystemPrompt(p), goals, "- " + p.goals[i]);
  }

  /** Each constraint appears in the prompt as its own "- constraint" line. */
  lemma PromptListsConstraint(p: Persona, i: nat)
    requires i < |p.constraints|
    ensures Contains(BuildSystemPrompt(p), "- " + p.constraints[i])
  {
    var constraints := Join(Bullets(p.constraints), "\n");
    PromptLayout(p);
    JoinContainsPart(Bullets(p.constraints), "\n", i);
    ContainsTransitive(BuildSystemPrompt(p), constraints, "- " + p.constraints[i]);
  }

  /** The prompt embeds the persona's name, style and tone. */
  lemma PromptEmbedsPersona(p: Persona)
    ensures Contains(BuildSystemPrompt(p), p.name)
    ensures Contains(BuildSystemPrompt(p), p.style)
    ensures Contains(BuildSystemPrompt(p), p.negotiationTone)
  {
    var prompt := BuildSystemPrompt(p);
    var goals := Join(Bullets(p.goals), "\n");
    var constraints := Join(Bullets(p.constraints), "\n");
    LayoutOffsets(Opening(p), goals, ConstraintsHeading, constraints, Instructions);
    assert OccursAt(prompt, Opening(p), 0);
    Pieces(Greeting, p.name, StyleLabel, p.style, ToneLabel, p.negotiationTone, GoalsHeading);
    ContainsTransitive(prompt, Opening(p), p.name);
    ContainsTransitive(prompt, Opening(p), p.style);
    ContainsTransitive(prompt, Opening(p), p.negotiationTone);
  }

  lemma Pieces(a: string, b: string, c: string, d: string, e: string, f: string, g: string)
    ensures var s := a + b + c + d + e + f + g;
            Contains(s, b) && Contains(s, d) && Contains(s, f)
  {
    var s := a + b + c + d + e + f + g;
    assert OccursAt(s, b, |a|);
    assert OccursAt(s, d, |a + b + c|);
    assert OccursAt(s, f, |a + b + c + d + e|);
  }

  /** The role a history entry speaks with: the supplier's own turns are the assistant's. */
  function RoleFor(sender: string): (r: string)
    ensures r == "assistant" <==> sender == "supplier"
    ensures r == "assistant" || r == "user"
  {
    if sender == "supplier" then "assistant" else "user"
  }

  predicate WellFormed(entry: map<string, string>) {
    "sender" in entry && "content" in entry
  }

  /** `generate_reply`'s message list: the system prompt, the history turn by turn, then the latest proposal.
      A history entry without `sender` or `content` raises KeyError naming the missing key. */
  method ReplyMessages(p: Persona, history: seq<map<string, string>>, latestProposal: string)
    returns (r: Result<seq<Message>, string>)
    ensures r.Success? <==> forall i :: 0 <= i < |history| ==> WellFormed(history[i])
    ensures r.Success? ==>
              && |r.value| == |history| + 2
              && r.value[0] == Message("system", BuildSystemPrompt(p))
              && (forall i :: 0 <= i < |history| ==>
                    r.value[i + 1] == Message(RoleFor(history[i]["sender"]), history[i]["content"]))
              && r.value[|history| + 1] == Message("user", "Latest Proposal/Message: " + latestProposal)
    ensures r.Failure? ==> exists f :: 0 <= f < |history| && !WellFormed(history[f])
                                       && (forall i :: 0 <= i < f ==> WellFormed(history[i]))
                                       && r.error == (if "sender" !in history[f] then "sender" else "content")
  {
    var messages := [Message("system", BuildSystemPrompt(p))];
    for i := 0 to |history|
      invariant |messages| == i + 1
      invariant messages[0] == Message("system", BuildSystemPrompt(p))
      invariant forall k :: 0 <= k < i ==> WellFormed(history[k])
      invariant forall k :: 0 <= k < i ==>
                  messages[k + 1] == Message(RoleFor(history[k]["sender"]), history[k]["content"])
    {
      var entry := history[i];
      if "sender" !in entry {
        return Failure("sender");
      }
      var role := RoleFor(entry["sender"]);
      if "content" !in entry {
        return Failure("content");
      }
      messages := messages + [Message(role, entry["content"])];
    }
    messages := messages + [Message("user", "Latest Proposal/Message: " + latestProposal)];
    r := Success(messages);
  }
}
