/** The status report's text: the parsed response, a map from load balancer to
    listener to rule to a list of applications (each map kept as its key/value
    pairs in iteration order), printed one name per line, indented by its depth
    with tabs. */
module Render {
  import opened PyStr

  type Apps = seq<string>
  type Rules = seq<(string, Apps)>
  type Listeners = seq<(string, Rules)>
  type Balancers = seq<(string, Listeners)>

  /** One printed line: its depth (0 load balancer, 1 listener, 2 rule, 3 application) and its name. */
  datatype Line = Line(depth: nat, text: string)

  // The report as a list of lines: each entry, followed by the entries nested in it.

  function AppLines(apps: Apps): (ls: seq<Line>)
  {
    if apps == [] then [] else [Line(3, apps[0])] + AppLines(apps[1..])
  }

  function RuleLines(rules: Rules): (ls: seq<Line>)
  {
    if rules == [] then []
    else [Line(2, rules[0].0)] + AppLines(rules[0].1) + RuleLines(rules[1..])
  }

  function ListenerLines(listeners: Listeners): (ls: seq<Line>)
  {
    if listeners == [] then []
    else [Line(1, listeners[0].0)] + RuleLines(listeners[0].1) + ListenerLines(listeners[1..])
  }

  function Outline(balancers: Balancers): (ls: seq<Line>)
    ensures |ls| == Entries(balancers)
  {
    if balancers == [] then []
    else
      ListenerLinesSize(balancers[0].1);
      [Line(0, balancers[0].0)] + ListenerLines(balancers[0].1) + Outline(balancers[1..])
  }

  // How many entries (keys at every level, plus applications) a map holds.

  function RuleEntries(rules: Rules): nat {
    if rules == [] then 0 else 1 + |rules[0].1| + RuleEntries(rules[1..])
  }

  function ListenerEntries(listeners: Listeners): nat {
    if listeners == [] then 0 else 1 + RuleEntries(listeners[0].1) + ListenerEntries(listeners[1..])
  }

  function Entries(balancers: Balancers): nat {
    if balancers == [] then 0 else 1 + ListenerEntries(balancers[0].1) + Entries(balancers[1..])
  }

  function Tabs(n: nat): (t: string)
    ensures |t| == n && forall i :: 0 <= i < n ==> t[i] == '\t'
  {
    if n == 0 then "" else "\t" + Tabs(n - 1)
  }

  /** A line as printed, without its newline. */
  function LineText(l: Line): string {
    Tabs(l.depth) + l.text
  }

  /** Every line printed and terminated by a newline. */
  function Unlines(ls: seq<Line>): string {
    if ls == [] then "" else LineText(ls[0]) + "\n" + Unlines(ls[1..])
  }

  /** The report the status command prints for a successful response. */
  function Render(balancers: Balancers): (out: string)
    ensures out == "" <==> balancers == []
  {
    UnlinesOutlineEmpty(balancers);
    Unlines(Outline(balancers))
  }

  /** The loops of the status command: append each load-balancer name, each
      listener after one tab, each rule after two, each application after three.
      Each nested loop is its own method below, appending to the same output. */
  method RenderStatus(balancers: Balancers) returns (output: string)
    ensures output == Render(balancers)
  {
    output := "";
    for i := 0 to |balancers|
      invariant output == Unlines(Outline(balancers[..i]))
    {
      var balancer, listeners := balancers[i].0, balancers[i].1;
      BalancerStep(balancers, i);
      output := output + balancer + "\n";
      output := AppendListeners(output, listeners);
    }
    assert balancers[..|balancers|] == balancers;
  }

  method AppendListeners(before: string, listeners: Listeners) returns (output: string)
    ensures output == before + Unlines(ListenerLines(listeners))
  {
    output := before;
    for j := 0 to |listeners|
      invariant output == before + Unlines(ListenerLines(listeners[..j]))
    {
      var listener, rules := listeners[j].0, listeners[j].1;
      ListenerStep(before, listeners, j);
      output := output + "\t" + listener + "\n";
      output := AppendRules(output, rules);
    }
    assert listeners[..|listeners|] == listeners;
  }

  method AppendRules(before: string, rules: Rules) returns (output: string)
    ensures output == before + Unlines(RuleLines(rules))
  {
    output := before;
    for k := 0 to |rules|
      invariant output == before + Unlines(RuleLines(rules[..k]))
    {
      var rule, apps := rules[k].0, rules[k].1;
      RuleStep(before, rules, k);
      output := output + "\t\t" + rule + "\n";
      output := AppendApps(output, apps);
    }
    assert rules[..|rules|] == rules;
  }

  method AppendApps(before: string, apps: Apps) returns (output: string)
    ensures output == before + Unlines(AppLines(apps))
  {
    output := before;
    for m := 0 to |apps|
      invariant output == before + Unlines(AppLines(apps[..m]))
    {
      AppStep(before, apps, m);
      output := output + "\t\t\t" + apps[m] + "\n";
    }
    assert apps[..|apps|] == apps;
  }

  // What one iteration of each loop appends, grouped as the loop computes it.

  lemma AppStep(before: string, apps: Apps, m: nat)
    requires m < |apps|
    ensures before + Unlines(AppLines(apps[..m + 1]))
         == before + Unlines(AppLines(apps[..m])) + "\t\t\t" + apps[m] + "\n"
  {
    AppLinesSnoc(apps, m);
    UnlinesExtend(AppLines(apps[..m]), Line(3, apps[m]), []);
    TabsThree();
  }

  lemma RuleStep(before: string, rules: Rules, k: nat)
    requires k < |rules|
    ensures before + Unlines(RuleLines(rules[..k + 1]))
         == before + Unlines(RuleLines(rules[..k])) + "\t\t" + rules[k].0 + "\n" + Unlines(AppLines(rules[k].1))
  {
    var head := Line(2, rules[k].0);
    RuleLinesSnoc(rules, k);
    UnlinesExtend(RuleLines(rules[..k]), head, AppLines(rules[k].1));
    assert LineText(head) == "\t\t" + rules[k].0 by {
      TabsTwo();
    }
  }

  lemma ListenerStep(before: string, listeners: Listeners, j: nat)
    requires j < |listeners|
    ensures before + Unlines(ListenerLines(listeners[..j + 1]))
         == before + Unlines(ListenerLines(listeners[..j])) + "\t" + listeners[j].0 + "\n" + Unlines(RuleLines(listeners[j].1))
  {
    ListenerLinesSnoc(listeners, j);
    UnlinesExtend(ListenerLines(listeners[..j]), Line(1, listeners[j].0), RuleLines(listeners[j].1));
    TabsOne();
  }

  lemma BalancerStep(balancers: Balancers, i: nat)
    requires i < |balancers|
    ensures Unlines(Outline(balancers[..i + 1]))
         == Unlines(Outline(balancers[..i])) + balancers[i].0 + "\n" + Unlines(ListenerLines(balancers[i].1))
  {
    OutlineSnoc(balancers, i);
    UnlinesExtend(Outline(balancers[..i]), Line(0, balancers[i].0), ListenerLines(balancers[i].1));
  }

  lemma AppLinesSnoc(apps: Apps, m: nat)
    requires m < |apps|
    ensures AppLines(apps[..m + 1]) == AppLines(apps[..m]) + ([Line(3, apps[m])] + [])
  {
    assert apps[..m + 1] == apps[..m] + [apps[m]];
    AppLinesAppend(apps[..m], [apps[m]]);
    assert AppLines([apps[m]]) == [Line(3, apps[m])] + AppLines([]);
  }

  lemma RuleLinesSnoc(rules: Rules, k: nat)
    requires k < |rules|
    ensures RuleLines(rules[..k + 1]) == RuleLines(rules[..k]) + ([Line(2, rules[k].0)] + AppLines(rules[k].1))
  {
    assert rules[..k + 1] == rules[..k] + [rules[k]];
    RuleLinesAppend(rules[..k], [rules[k]]);
    RuleLinesOne(rules[k]);
  }

  lemma ListenerLinesSnoc(listeners: Listeners, j: nat)
    requires j < |listeners|
    ensures ListenerLines(listeners[..j + 1]) == ListenerLines(listeners[..j]) + ([Line(1, listeners[j].0)] + RuleLines(listeners[j].1))
  {
    assert listeners[..j + 1] == listeners[..j] + [listeners[j]];
    ListenerLinesAppend(listeners[..j], [listeners[j]]);
    ListenerLinesOne(listeners[j]);
  }

  lemma OutlineSnoc(balancers: Balancers, i: nat)
    requires i < |balancers|
    ensures Outline(balancers[..i + 1]) == Outline(balancers[..i]) + ([Line(0, balancers[i].0)] + ListenerLines(balancers[i].1))
  {
    assert balancers[..i + 1] == balancers[..i] + [balancers[i]];
    OutlineAppend(balancers[..i], [balancers[i]]);
    OutlineOne(balancers[i]);
  }

  lemma UnlinesExtend(prefix: seq<Line>, head: Line, nested: seq<Line>)
    ensures Unlines(prefix + ([head] + nested)) == Unlines(prefix) + (LineText(head) + "\n" + Unlines(nested))
  {
    UnlinesAppend(prefix, [head] + nested);
    UnlinesHead(head, nested);
  }

  lemma TabsOne() ensures Tabs(1) == "\t" { }
  lemma TabsTwo() ensures Tabs(2) == "\t\t" { }
  lemma TabsThree() ensures Tabs(3) == "\t\t\t" { }

  lemma RuleLinesOne(rule: (string, Apps))
    ensures RuleLines([rule]) == [Line(2, rule.0)] + AppLines(rule.1)
  {
    assert [rule][1..] == [];
  }

  lemma ListenerLinesOne(listener: (string, Rules))
    ensures ListenerLines([listener]) == [Line(1, listener.0)] + RuleLines(listener.1)
  {
    assert [listener][1..] == [];
  }

  lemma OutlineOne(balancer: (string, Listeners))
    ensures Outline([balancer]) == [Line(0, balancer.0)] + ListenerLines(balancer.1)
  {
    assert [balancer][1..] == [];
  }

  lemma UnlinesHead(l: Line, ls: seq<Line>)
    ensures Unlines([l] + ls) == LineText(l) + "\n" + Unlines(ls)
  {
    assert ([l] + ls)[1..] == ls;
  }

  lemma UnlinesSnoc(ls: seq<Line>, l: Line)
    ensures Unlines(ls + [l]) == Unlines(ls) + LineText(l) + "\n"
  {
    UnlinesAppend(ls, [l]);
    UnlinesHead(l, []);
  }

  // Printing and listing distribute over concatenation.

  lemma {:induction false} UnlinesAppend(a: seq<Line>, b: seq<Line>)
    ensures Unlines(a + b) == Unlines(a) + Unlines(b)
  {
    if a == [] {
      assert a + b == b;
    } else {
      assert (a + b)[1..] == a[1..] + b;
      UnlinesAppend(a[1..], b);
    }
  }

  lemma {:induction false} AppLinesAppend(a: Apps, b: Apps)
    ensures AppLines(a + b) == AppLines(a) + AppLines(b)
  {
    if a == [] {
      assert a + b == b;
    } else {
      assert (a + b)[1..] == a[1..] + b;
      AppLinesAppend(a[1..], b);
    }
  }

  lemma {:induction false} RuleLinesAppend(a: Rules, b: Rules)
    ensures RuleLines(a + b) == RuleLines(a) + RuleLines(b)
  {
    if a == [] {
      assert a + b == b;
    } else {
      assert (a + b)[1..] == a[1..] + b;
      RuleLinesAppend(a[1..], b);
    }
  }

  lemma {:induction false} ListenerLinesAppend(a: Listeners, b: Listeners)
    ensures ListenerLines(a + b) == ListenerLines(a) + ListenerLines(b)
  {
    if a == [] {
      assert a + b == b;
    } else {
      assert (a + b)[1..] == a[1..] + b;
      ListenerLinesAppend(a[1..], b);
    }
  }

  lemma {:induction false} OutlineAppend(a: Balancers, b: Balancers)
    ensures Outline(a + b) == Outline(a) + Outline(b)
  {
    if a == [] {
      assert a + b == b;
    } else {
      assert (a + b)[1..] == a[1..] + b;
      OutlineAppend(a[1..], b);
    }
  }
  lemma {:induction false} RuleLinesSize(rules: Rules)
    ensures |RuleLines(rules)| == RuleEntries(rules)
  {
    if rules != [] {
      RuleLinesSize(rules[1..]);
      AppLinesSize(rules[0].1);
    }
  }

  lemma {:induction false} ListenerLinesSize(listeners: Listeners)
    ensures |ListenerLines(listeners)| == ListenerEntries(listeners)
  {
    if listeners != [] {
      ListenerLinesSize(listeners[1..]);
      RuleLinesSize(listeners[0].1);
    }
  }

  lemma {:induction false} AppLinesSize(apps: Apps)
    ensures |AppLines(apps)| == |apps|
  {
    if apps != [] {
      AppLinesSize(apps[1..]);
    }
  }

  /** Only an empty response map prints no lines. */
  lemma UnlinesOutlineEmpty(balancers: Balancers)
    ensures Unlines(Outline(balancers)) == "" <==> balancers == []
  {
    if balancers != [] {
      var ls := Outline(balancers);
      assert ls[0] == Line(0, balancers[0].0);
      assert |Unlines(ls)| >= |LineText(ls[0]) + "\n"|;
    }
  }

  // Reading the report back.

  /** Every line is nested deeper than `d`. */
  predicate Deeper(ls: seq<Line>, d: nat) {
    forall i :: 0 <= i < |ls| ==> ls[i].depth > d
  }

  lemma {:induction false} AppLinesDepth(apps: Apps)
    ensures Deeper(AppLines(apps), 2)
  {
    if apps != [] {
      AppLinesDepth(apps[1..]);
    }
  }

  lemma {:induction false} RuleLinesDepth(rules: Rules)
    ensures Deeper(RuleLines(rules), 1)
  {
    if rules != [] {
      RuleLinesDepth(rules[1..]);
      AppLinesDepth(rules[0].1);
    }
  }

  lemma {:induction false} ListenerLinesDepth(listeners: Listeners)
    ensures Deeper(ListenerLines(listeners), 0)
  {
    if listeners != [] {
      ListenerLinesDepth(listeners[1..]);
      RuleLinesDepth(listeners[0].1);
    }
  }

  /** The length of the longest prefix of lines nested deeper than `d`. */
  function Block(ls: seq<Line>, d: nat): (n: nat)
    ensures n <= |ls|
  {
    if ls != [] && ls[0].depth > d then 1 + Block(ls[1..], d) else 0
  }

  lemma {:induction false} BlockSpan(a: seq<Line>, b: seq<Line>, d: nat)
    requires Deeper(a, d)
    requires b == [] || b[0].depth <= d
    ensures Block(a + b, d) == |a|
  {
    if a == [] {
      assert a + b == b;
    } else {
      assert (a + b)[1..] == a[1..] + b;
      BlockSpan(a[1..], b, d);
    }
  }

  // Rebuilding the nested map from its lines: each line owns the deeper lines that follow it.

  function ToApps(ls: seq<Line>): Apps {
    if ls == [] then [] else [ls[0].text] + ToApps(ls[1..])
  }

  function ToRules(ls: seq<Line>): Rules
    decreases |ls|
  {
    if ls == [] then []
    else
      var n := Block(ls[1..], 2);
      [(ls[0].text, ToApps(ls[1..1 + n]))] + ToRules(ls[1 + n..])
  }

  function ToListeners(ls: seq<Line>): Listeners
    decreases |ls|
  {
    if ls == [] then []
    else
      var n := Block(ls[1..], 1);
      [(ls[0].text, ToRules(ls[1..1 + n]))] + ToListeners(ls[1 + n..])
  }

  function ToBalancers(ls: seq<Line>): Balancers
    decreases |ls|
  {
    if ls == [] then []
    else
      var n := Block(ls[1..], 0);
      [(ls[0].text, ToListeners(ls[1..1 + n]))] + ToBalancers(ls[1 + n..])
  }

  lemma {:induction false} AppsBack(apps: Apps)
    ensures ToApps(AppLines(apps)) == apps
  {
    if apps != [] {
      AppsBack(apps[1..]);
    }
  }

  // One step of each rebuild: a line followed by its deeper block and the rest.

  lemma RulesStep(head: Line, nested: seq<Line>, rest: seq<Line>)
    requires Deeper(nested, 2) && (rest == [] || rest[0].depth <= 2)
    ensures ToRules([head] + nested + rest) == [(head.text, ToApps(nested))] + ToRules(rest)
  {
    var ls := [head] + nested + rest;
    assert ls[1..] == nested + rest;
    BlockSpan(nested, rest, 2);
    assert ls[1..1 + |nested|] == nested;
    assert ls[1 + |nested|..] == rest;
  }

  lemma ListenersStep(head: Line, nested: seq<Line>, rest: seq<Line>)
    requires Deeper(nested, 1) && (rest == [] || rest[0].depth <= 1)
    ensures ToListeners([head] + nested + rest) == [(head.text, ToRules(nested))] + ToListeners(rest)
  {
    var ls := [head] + nested + rest;
    assert ls[1..] == nested + rest;
    BlockSpan(nested, rest, 1);
    assert ls[1..1 + |nested|] == nested;
    assert ls[1 + |nested|..] == rest;
  }

  lemma BalancersStep(head: Line, nested: seq<Line>, rest: seq<Line>)
    requires Deeper(nested, 0) && (rest == [] || rest[0].depth <= 0)
    ensures ToBalancers([head] + nested + rest) == [(head.text, ToListeners(nested))] + ToBalancers(rest)
  {
    var ls := [head] + nested + rest;
    assert ls[1..] == nested + rest;
    BlockSpan(nested, rest, 0);
    assert ls[1..1 + |nested|] == nested;
    assert ls[1 + |nested|..] == rest;
  }

  /** The first rule's line, then its applications' lines, then the rest. */
  lemma RulesHead(rules: Rules)
    requires rules != []
    ensures ToRules(RuleLines(rules)) == [(rules[0].0, ToApps(AppLines(rules[0].1)))] + ToRules(RuleLines(rules[1..]))
  {
    var rest := RuleLines(rules[1..]);
    AppLinesDepth(rules[0].1);
    assert rest == [] || rest[0].depth == 2;
    RulesStep(Line(2, rules[0].0), AppLines(rules[0].1), rest);
  }

  lemma ListenersHead(listeners: Listeners)
    requires listeners != []
    ensures ToListeners(ListenerLines(listeners))
         == [(listeners[0].0, ToRules(RuleLines(listeners[0].1)))] + ToListeners(ListenerLines(listeners[1..]))
  {
    var rest := ListenerLines(listeners[1..]);
    RuleLinesDepth(listeners[0].1);
    assert rest == [] || rest[0].depth == 1;
    ListenersStep(Line(1, listeners[0].0), RuleLines(listeners[0].1), rest);
  }

  lemma BalancersHead(balancers: Balancers)
    requires balancers != []
    ensures ToBalancers(Outline(balancers))
         == [(balancers[0].0, ToListeners(ListenerLines(balancers[0].1)))] + ToBalancers(Outline(balancers[1..]))
  {
    var rest := Outline(balancers[1..]);
    ListenerLinesDepth(balancers[0].1);
    assert rest == [] || rest[0].depth == 0;
    BalancersStep(Line(0, balancers[0].0), ListenerLines(balancers[0].1), rest);
  }

  lemma {:induction false} RulesBack(rules: Rules)
    ensures ToRules(RuleLines(rules)) == rules
  {
    if rules != [] {
      RulesHead(rules);
      AppsBack(rules[0].1);
      RulesBack(rules[1..]);
      assert [(rules[0].0, rules[0].1)] + rules[1..] == rules;
    }
  }

  lemma {:induction false} ListenersBack(listeners: Listeners)
    ensures ToListeners(ListenerLines(listeners)) == listeners
  {
    if listeners != [] {
      ListenersHead(listeners);
      RulesBack(listeners[0].1);
      ListenersBack(listeners[1..]);
      assert [(listeners[0].0, listeners[0].1)] + listeners[1..] == listeners;
    }
  }

  /** The lines determine the nested map: nothing of its structure or order is lost. */
  lemma {:induction false} OutlineBack(balancers: Balancers)
    ensures ToBalancers(Outline(balancers)) == balancers
  {
    if balancers != [] {
      BalancersHead(balancers);
      ListenersBack(balancers[0].1);
      OutlineBack(balancers[1..]);
      assert [(balancers[0].0, balancers[0].1)] + balancers[1..] == balancers;
    }
  }

  // Reading lines back from the text.

  /** A name the report can print unambiguously: no newline in it, no tab in front. */
  predicate CleanName(t: string) {
    '\n' !in t && (t == [] || t[0] != '\t')
  }

  predicate CleanLines(ls: seq<Line>) {
    forall i :: 0 <= i < |ls| ==> CleanName(ls[i].text)
  }

  /** Every name the report prints is clean. */
  predicate Clean(balancers: Balancers) {
    CleanLines(Outline(balancers))
  }

  function LeadingTabs(p: string): (n: nat)
    ensures n <= |p|
  {
    if p != [] && p[0] == '\t' then 1 + LeadingTabs(p[1..]) else 0
  }

  /** A printed line read back: its leading tabs give the depth, the rest is the name. */
  function ToLine(p: string): Line {
    var n := LeadingTabs(p);
    Line(n, p[n..])
  }

  /** The printed lines, each without its newline. */
  function Texts(ls: seq<Line>): seq<string> {
    seq(|ls|, i requires 0 <= i < |ls| => LineText(ls[i]))
  }

  /** The lines of a text in which every line ends in a newline. */
  function ReadLines(s: string): seq<Line> {
    var parts := Split(s, '\n');
    seq(|parts| - 1, i requires 0 <= i < |parts| - 1 => ToLine(parts[i]))
  }

  /** The nested map a report was printed from. */
  function Parse(s: string): Balancers {
    ToBalancers(ReadLines(s))
  }

  lemma {:induction false} LineBack(l: Line)
    requires CleanName(l.text)
    ensures ToLine(LineText(l)) == l
  {
    LeadingTabsOf(l.depth, l.text);
    assert LineText(l)[l.depth..] == l.text;
  }

  lemma {:induction false} LeadingTabsOf(d: nat, t: string)
    requires t == [] || t[0] != '\t'
    ensures LeadingTabs(Tabs(d) + t) == d
  {
    if d == 0 {
      assert Tabs(d) + t == t;
    } else {
      assert (Tabs(d) + t)[1..] == Tabs(d - 1) + t;
      LeadingTabsOf(d - 1, t);
    }
  }

  /** The printed text is the lines joined by newlines, with a newline after the last. */
  lemma {:induction false} UnlinesJoin(ls: seq<Line>)
    ensures Unlines(ls) == Join(Texts(ls) + [""], '\n')
  {
    if ls != [] {
      UnlinesJoin(ls[1..]);
      var parts := Texts(ls) + [""];
      assert parts[0] == LineText(ls[0]);
      assert parts[1..] == Texts(ls[1..]) + [""];
    }
  }

  /** With clean names, the report splits at its newlines into exactly one line per entry,
      in order and indented by depth, followed by nothing after the last newline. */
  lemma RenderLines(balancers: Balancers)
    requires Clean(balancers)
    ensures Split(Render(balancers), '\n') == Texts(Outline(balancers)) + [""]
  {
    var ls := Outline(balancers);
    var parts := Texts(ls) + [""];
    forall i | 0 <= i < |parts|
      ensures '\n' !in parts[i]
    {
      if i < |ls| {
        assert parts[i] == Tabs(ls[i].depth) + ls[i].text;
      }
    }
    UnlinesJoin(ls);
    SplitJoin(parts, '\n');
  }

  /** With clean names, the number of newlines in the report is the number of entries. */
  lemma LineCount(balancers: Balancers)
    requires Clean(balancers)
    ensures multiset(Render(balancers))['\n'] == Entries(balancers)
  {
    RenderLines(balancers);
    SplitCount(Render(balancers), '\n');
  }

  /** With clean names, the report can be read back into the very map it was printed from. */
  lemma ParseRender(balancers: Balancers)
    requires Clean(balancers)
    ensures Parse(Render(balancers)) == balancers
  {
    var ls := Outline(balancers);
    RenderLines(balancers);
    var parts := Split(Render(balancers), '\n');
    assert ReadLines(Render(balancers)) == ls by {
      forall i | 0 <= i < |ls|
        ensures ToLine(parts[i]) == ls[i]
      {
        assert parts[i] == LineText(ls[i]);
        LineBack(ls[i]);
      }
    }
    OutlineBack(balancers);
  }

  /** The report for one load balancer with one listener, one rule and two
      applications: one line per entry, indented by its depth. */
  lemma RenderExample()
    ensures Render([("lb1", [("l1", [("r1", ["app1", "app2"])])])])
         == "lb1\n" + "\tl1\n" + "\t\tr1\n" + "\t\t\tapp1\n" + "\t\t\tapp2\n"
  {
    var ls := Outline([("lb1", [("l1", [("r1", ["app1", "app2"])])])]);
    ExampleOutline();
    var u4, u3, u2, u1 := Unlines(ls[4..]), Unlines(ls[3..]), Unlines(ls[2..]), Unlines(ls[1..]);
    assert u4 == "\t\t\tapp2\n" by {
      ExampleLines();
      UnlinesFrom(ls, 4);
      assert ls[5..] == [];
    }
    assert u3 == "\t\t\tapp1\n" + u4 by {
      ExampleLines();
      UnlinesFrom(ls, 3);
    }
    assert u2 == "\t\tr1\n" + u3 by {
      ExampleLines();
      UnlinesFrom(ls, 2);
    }
    assert u1 == "\tl1\n" + u2 by {
      ExampleLines();
      UnlinesFrom(ls, 1);
    }
    assert Unlines(ls) == "lb1\n" + u1 by {
      ExampleLines();
      UnlinesFrom(ls, 0);
      assert ls[0..] == ls;
    }
  }

  lemma UnlinesFrom(ls: seq<Line>, k: nat)
    requires k < |ls|
    ensures Unlines(ls[k..]) == LineText(ls[k]) + "\n" + Unlines(ls[k + 1..])
  {
    assert ls[k..][1..] == ls[k + 1..];
  }

  lemma ExampleOutline()
    ensures Outline([("lb1", [("l1", [("r1", ["app1", "app2"])])])])
         == [Line(0, "lb1"), Line(1, "l1"), Line(2, "r1"), Line(3, "app1"), Line(3, "app2")]
  {
    var apps: Apps := ["app1", "app2"];
    assert AppLines(apps) == [Line(3, "app1"), Line(3, "app2")] by {
      assert apps[1..] == ["app2"];
      assert apps[1..][1..] == [];
    }
    var rules: Rules := [("r1", apps)];
    RuleLinesOne(rules[0]);
    var listeners: Listeners := [("l1", rules)];
    ListenerLinesOne(listeners[0]);
    OutlineOne(("lb1", listeners));
  }

  /** The five lines of the example as printed. */
  lemma ExampleLines()
    ensures LineText(Line(0, "lb1")) + "\n" == "lb1\n"
    ensures LineText(Line(1, "l1")) + "\n" == "\tl1\n"
    ensures LineText(Line(2, "r1")) + "\n" == "\t\tr1\n"
    ensures LineText(Line(3, "app1")) + "\n" == "\t\t\tapp1\n"
    ensures LineText(Line(3, "app2")) + "\n" == "\t\t\tapp2\n"
  {
    TabsOne();
    TabsTwo();
    TabsThree();
  }
}
