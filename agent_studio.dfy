/**
 * The Agent Studio wizard of pages/AgentConfigurator.tsx: step 1 names the
 * agent and picks its role, step 2 toggles capabilities, step 3 toggles
 * integrations, step 4 takes the objective and runs the synthesis call, and
 * step 5 shows the generated specification.
 */
module AgentStudio {
  import opened Outcomes

  /** The `agentConfig` state record. */
  datatype AgentConfig = AgentConfig(name: string, role: string, capabilities: seq<string>,
                                     integrations: seq<string>, customObjective: string)

  const EmptyConfig := AgentConfig("", "", [], [], "")

  /** The generated specification the synthesis call is asked for. */
  datatype AgentSpec = AgentSpec(systemPrompt: string, logicFlow: seq<string>,
                                 securityGuardrails: seq<string>, estimatedROI: string)

  /** One card of the role selector (its icon and description are markup). */
  datatype Role = Role(id: string, title: string)

  const Roles := [Role("orchestrator", "Executive Orchestrator"), Role("sentinel", "Data Sentinel"),
                  Role("specialist", "Task Specialist"), Role("concierge", "Client Concierge")]

  const CapabilityOptions := ["Web Research", "Document Analysis", "Code Execution", "Image Generation",
                              "Database Querying", "API Orchestration", "Multi-Step Reasoning"]

  const IntegrationOptions := ["Slack", "Microsoft Teams", "Salesforce", "Zendesk", "Email (SMTP)",
                               "Custom Webhooks", "SQL/NoSQL DB"]

  const SynthesisFailedAlert := "Deployment synthesis failed. Please try again."

  /** Whether `t` is the title of one of the four roles. */
  predicate IsRoleTitle(t: string)
  {
    exists r :: r in Roles && r.title == t
  }

  predicate NoDup(xs: seq<string>)
  {
    forall i, j :: 0 <= i < j < |xs| ==> xs[i] != xs[j]
  }

  /** `xs.filter(y => y !== x)`: every copy of `x` dropped, every other item
      kept as often as before; `WithoutAppend` shows the filter works piece
      by piece, so the order of the kept items is that of `xs`. */
  function Without(xs: seq<string>, x: string): (r: seq<string>)
    ensures x !in r
    ensures forall y :: y != x ==> (y in r <==> y in xs)
    ensures multiset(r) == multiset(xs)[x := 0]
    ensures x !in xs ==> r == xs
  {
    if xs == [] then []
    else
      assert xs == [xs[0]] + xs[1..];
      if xs[0] == x then Without(xs[1..], x) else [xs[0]] + Without(xs[1..], x)
  }

  /** The toggle of `handleToggleCapability` and `handleToggleIntegration`:
      remove `x` if the list includes it, append it otherwise. */
  function Toggle(xs: seq<string>, x: string): (r: seq<string>)
    ensures x in r <==> x !in xs
    ensures forall y :: y != x ==> (y in r <==> y in xs)
    ensures x !in xs ==> r == xs + [x]
    ensures x in xs ==> multiset(r) == multiset(xs)[x := 0]
  {
    if x in xs then Without(xs, x) else xs + [x]
  }

  lemma {:induction false} WithoutKeepsNoDup(xs: seq<string>, x: string)
    requires NoDup(xs)
    ensures NoDup(Without(xs, x))
  {
    if xs != [] {
      assert NoDup(xs[1..]) by {
        forall i, j | 0 <= i < j < |xs[1..]| ensures xs[1..][i] != xs[1..][j] {
          assert xs[1..][i] == xs[i + 1] && xs[1..][j] == xs[j + 1];
        }
      }
      WithoutKeepsNoDup(xs[1..], x);
      if xs[0] != x {
        var w := Without(xs[1..], x);
        assert xs[0] !in xs[1..] by {
          forall k | 0 <= k < |xs[1..]| ensures xs[1..][k] != xs[0] {
            assert xs[1..][k] == xs[k + 1];
          }
        }
        assert xs[0] !in w;
        forall i, j | 0 <= i < j < |[xs[0]] + w| ensures ([xs[0]] + w)[i] != ([xs[0]] + w)[j] {
          if i > 0 {
            assert ([xs[0]] + w)[i] == w[i - 1] && ([xs[0]] + w)[j] == w[j - 1];
          } else {
            assert ([xs[0]] + w)[j] == w[j - 1];
          }
        }
      }
    }
  }

  /** A toggle keeps a duplicate-free list duplicate-free. */
  lemma ToggleKeepsNoDup(xs: seq<string>, x: string)
    requires NoDup(xs)
    ensures NoDup(Toggle(xs, x))
  {
    if x in xs {
      WithoutKeepsNoDup(xs, x);
    } else {
      var r := xs + [x];
      forall i, j | 0 <= i < j < |r| ensures r[i] != r[j] {
        if j == |xs| {
          assert r[i] == xs[i] && r[j] == x;
        } else {
          assert r[i] == xs[i] && r[j] == xs[j];
        }
      }
    }
  }

  /** Toggling an item that is not in the list twice restores the list. */
  lemma ToggleTwiceAbsent(xs: seq<string>, x: string)
    requires x !in xs
    ensures Toggle(Toggle(xs, x), x) == xs
  {
    WithoutAppend(xs, [x], x);
  }

  lemma {:induction false} WithoutAppend(a: seq<string>, b: seq<string>, x: string)
    ensures Without(a + b, x) == Without(a, x) + Without(b, x)
  {
    if a == [] {
      assert a + b == b;
    } else {
      assert (a + b)[1..] == a[1..] + b;
      assert (a + b)[0] == a[0];
      WithoutAppend(a[1..], b, x);
    }
  }

  /** A duplicate-free list holds each of its items once. */
  lemma {:induction false} NoDupOnce(xs: seq<string>, x: string)
    requires NoDup(xs) && x in xs
    ensures multiset(xs)[x] == 1
  {
    assert xs == [xs[0]] + xs[1..];
    assert NoDup(xs[1..]) by {
      forall i, j | 0 <= i < j < |xs[1..]| ensures xs[1..][i] != xs[1..][j] {
        assert xs[1..][i] == xs[i + 1] && xs[1..][j] == xs[j + 1];
      }
    }
    if xs[0] == x {
      assert x !in xs[1..] by {
        forall k | 0 <= k < |xs[1..]| ensures xs[1..][k] != x {
          assert xs[1..][k] == xs[k + 1];
        }
      }
    } else {
      NoDupOnce(xs[1..], x);
    }
  }

  /** Toggling an item that is in the list twice moves every copy of it
      to a single one at the end. */
  lemma ToggleTwicePresent(xs: seq<string>, x: string)
    requires x in xs
    ensures Toggle(Toggle(xs, x), x) == Without(xs, x) + [x]
  {
  }

  /** On a duplicate-free list that round trip brings back the same items. */
  lemma ToggleTwiceSameItems(xs: seq<string>, x: string)
    requires NoDup(xs) && x in xs
    ensures multiset(Toggle(Toggle(xs, x), x)) == multiset(xs)
  {
    ToggleTwicePresent(xs, x);
    NoDupOnce(xs, x);
  }

  /** ... and the very same list exactly when the item was the last one. */
  lemma ToggleTwiceRestoresIffLast(xs: seq<string>, x: string)
    requires NoDup(xs) && x in xs
    ensures Toggle(Toggle(xs, x), x) == xs <==> xs[|xs| - 1] == x
  {
    ToggleTwicePresent(xs, x);
    var twice := Without(xs, x) + [x];
    if xs[|xs| - 1] == x {
      var init := xs[..|xs| - 1];
      assert xs == init + [x];
      assert x !in init by {
        NoDupOnce(xs, x);
        assert multiset(xs) == multiset(init) + multiset{x};
      }
      WithoutAppend(init, [x], x);
    } else {
      assert twice[|twice| - 1] == x;
    }
  }

  /** The Agent Studio page. */
  class AgentConfigurator {
    var step: int
    var loading: bool
    var config: AgentConfig
    var result: Option<AgentSpec>
    var alerts: seq<string>

    /** Each step past the first is reached only with the earlier steps'
        inputs in place, the lists hold distinct offered items, and step 5 is
        never shown without a result. */
    ghost predicate Valid()
      reads this
    {
      && 1 <= step <= 5
      && !loading
      && (config.role == "" || IsRoleTitle(config.role))
      && NoDup(config.capabilities) && (forall c :: c in config.capabilities ==> c in CapabilityOptions)
      && NoDup(config.integrations) && (forall c :: c in config.integrations ==> c in IntegrationOptions)
      && (step >= 2 ==> IsRoleTitle(config.role))
      && (step >= 3 ==> config.capabilities != [])
      && (step >= 4 ==> config.integrations != [])
      && (step == 5 ==> result.Some? && config.customObjective != "")
    }

    constructor ()
      ensures Valid()
      ensures step == 1 && config == EmptyConfig && result.None? && alerts == []
    {
      step := 1;
      loading := false;
      config := EmptyConfig;
      result := None;
      alerts := [];
    }

    /** The "Agent Identifier" input of step 1. */
    method EditName(v: string)
      requires Valid()
      modifies this`config
      ensures Valid()
      ensures step == 1 ==> config == old(config).(name := v)
      ensures step != 1 ==> config == old(config)
    {
      if step == 1 {
        config := config.(name := v);
      }
    }

    /** A role card of step 1: sets the role's title and moves to step 2,
        whatever the name. */
    method ChooseRole(r: Role)
      requires Valid()
      modifies this`config, this`step
      ensures Valid()
      ensures old(step) == 1 && r in Roles ==> config == old(config).(role := r.title) && step == 2
      ensures !(old(step) == 1 && r in Roles) ==> unchanged(this)
    {
      if step == 1 && r in Roles {
        config := config.(role := r.title);
        step := 2;
      }
    }

    /** A capability button of step 2. */
    method ToggleCapability(cap: string)
      requires Valid()
      modifies this`config
      ensures Valid()
      ensures step == 2 && cap in CapabilityOptions ==>
                config == old(config).(capabilities := Toggle(old(config.capabilities), cap))
      ensures !(step == 2 && cap in CapabilityOptions) ==> config == old(config)
    {
      if step == 2 && cap in CapabilityOptions {
        ToggleKeepsNoDup(config.capabilities, cap);
        config := config.(capabilities := Toggle(config.capabilities, cap));
      }
    }

    /** An integration button of step 3. */
    method ToggleIntegration(item: string)
      requires Valid()
      modifies this`config
      ensures Valid()
      ensures step == 3 && item in IntegrationOptions ==>
                config == old(config).(integrations := Toggle(old(config.integrations), item))
      ensures !(step == 3 && item in IntegrationOptions) ==> config == old(config)
    {
      if step == 3 && item in IntegrationOptions {
        ToggleKeepsNoDup(config.integrations, item);
        config := config.(integrations := Toggle(config.integrations, item));
      }
    }

    /** "Configure Ecosystem", disabled while no capability is chosen. */
    method PressConfigureEcosystem()
      requires Valid()
      modifies this`step
      ensures Valid()
      ensures old(step) == 2 && config.capabilities != [] ==> step == 3
      ensures !(old(step) == 2 && config.capabilities != []) ==> step == old(step)
    {
      if step == 2 && |config.capabilities| != 0 {
        step := 3;
      }
    }

    /** "Finalize Objectives", disabled while no integration is chosen. */
    method PressFinalizeObjectives()
      requires Valid()
      modifies this`step
      ensures Valid()
      ensures old(step) == 3 && config.integrations != [] ==> step == 4
      ensures !(old(step) == 3 && config.integrations != []) ==> step == old(step)
    {
      if step == 3 && |config.integrations| != 0 {
        step := 4;
      }
    }

    /** The back links of steps 2, 3 and 4, each one step down. */
    method PressBackLink()
      requires Valid()
      modifies this`step
      ensures Valid()
      ensures 2 <= old(step) <= 4 ==> step == old(step) - 1
      ensures !(2 <= old(step) <= 4) ==> step == old(step)
    {
      if 2 <= step <= 4 {
        step := step - 1;
      }
    }

    /** The objective text area of step 4. */
    method EditObjective(v: string)
      requires Valid()
      modifies this`config
      ensures Valid()
      ensures step == 4 ==> config == old(config).(customObjective := v)
      ensures step != 4 ==> config == old(config)
    {
      if step == 4 {
        config := config.(customObjective := v);
      }
    }

    /** `handleFinalize`. `reply` is the reply's text, None when building the
        client or the call threw; `parse` stands for `JSON.parse`. There is no
        fallback: on any failure an alert and nothing else. */
    method HandleFinalize(reply: Option<string>, parse: string -> Option<AgentSpec>)
      modifies this`loading, this`result, this`step, this`alerts
      ensures !loading
      ensures reply.Some? && parse(reply.value).Some? ==>
                result == parse(reply.value) && step == 5 && alerts == old(alerts)
      ensures !(reply.Some? && parse(reply.value).Some?) ==>
                result == old(result) && step == old(step) && alerts == old(alerts) + [SynthesisFailedAlert]
    {
      loading := true;
      match reply {
        case None =>
          alerts := alerts + [SynthesisFailedAlert];
        case Some(text) =>
          match parse(text) {
            case None =>
              alerts := alerts + [SynthesisFailedAlert];
            case Some(spec) =>
              result := Some(spec);
              step := 5;
          }
      }
      loading := false;
    }

    /** "Architect Agent Brain", disabled without an objective or while loading. */
    method PressArchitect(reply: Option<string>, parse: string -> Option<AgentSpec>)
      requires Valid()
      modifies this`loading, this`result, this`step, this`alerts
      ensures Valid()
      ensures old(step == 4 && config.customObjective != "" && !loading) && reply.Some? && parse(reply.value).Some? ==>
                result == parse(reply.value) && step == 5 && alerts == old(alerts)
      ensures old(step == 4 && config.customObjective != "" && !loading) && !(reply.Some? && parse(reply.value).Some?) ==>
                result == old(result) && step == 4 && alerts == old(alerts) + [SynthesisFailedAlert]
      ensures !old(step == 4 && config.customObjective != "" && !loading) ==> unchanged(this)
    {
      if step == 4 && config.customObjective != "" && !loading {
        HandleFinalize(reply, parse);
      }
    }

    /** "New Architecture" on the result view: back to step 1, keeping the
        configuration and the result. */
    method PressNewArchitecture()
      requires Valid()
      modifies this`step
      ensures Valid()
      ensures old(step) == 5 ==> step == 1
      ensures old(step) != 5 ==> step == old(step)
    {
      if step == 5 && result.Some? {
        step := 1;
      }
    }
  }

  /** A failed synthesis keeps the wizard on step 4 with everything entered;
      a retry that succeeds reaches the result view. */
  method RetryScenario(spec: AgentSpec) returns (firstStep: int, finalStep: int, shown: Option<AgentSpec>, kept: AgentConfig)
    ensures firstStep == 4 && finalStep == 5 && shown == Some(spec)
    ensures kept.capabilities == ["Web Research"] && kept.integrations == ["Slack"]
  {
    var page := new AgentConfigurator();
    page.EditName("Nexus Sentinel");
    page.ChooseRole(Roles[1]);
    page.ToggleCapability(CapabilityOptions[0]);
    page.PressConfigureEcosystem();
    page.ToggleIntegration(IntegrationOptions[0]);
    page.PressFinalizeObjectives();
    page.EditObjective("Watch the CRM");
    page.PressArchitect(None, (t: string) => Some(spec));
    firstStep := page.step;
    page.PressArchitect(Some("{}"), (t: string) => Some(spec));
    finalStep, shown, kept := page.step, page.result, page.config;
  }
}
