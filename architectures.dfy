/**
 * The hexagonal architecture rule builder: four optional layer predicates,
 * the optional-layers flag and an optional overriding description, set
 * fluently in place, and the description rendered from them.
 */
module Architectures {
  import opened Wrappers
  import opened Text
  import opened Predicates

  /** First line of every generated description. */
  const Header := "Hexagonal architecture consisting of"

  /** The layers the rule holds a predicate for. */
  datatype Layer = ConfigurationLayer | ApplicationServiceLayer | DrivenPortLayer | DrivingPortLayer

  /** The fixed order in which configured layers are described. */
  const CanonicalOrder: seq<Layer> :=
    [ConfigurationLayer, ApplicationServiceLayer, DrivenPortLayer, DrivingPortLayer]

  /** The name a layer's line opens with; it holds no parenthesis, so ` (` ends it. */
  function Label(layer: Layer): (name: string)
    ensures |name| > 0
    ensures '(' !in name && ')' !in name
  {
    match layer
    case ConfigurationLayer => "configurations"
    case ApplicationServiceLayer => "application services"
    case DrivenPortLayer => "driven ports"
    case DrivingPortLayer => "driving ports"
  }

  /** Position of a layer in the canonical order. */
  function Rank(layer: Layer): (r: nat)
    ensures r < |CanonicalOrder| && CanonicalOrder[r] == layer
  {
    match layer
    case ConfigurationLayer => 0
    case ApplicationServiceLayer => 1
    case DrivenPortLayer => 2
    case DrivingPortLayer => 3
  }

  /** A snapshot of everything a rule holds. */
  datatype RuleState = RuleState(
    overriddenDescription: Option<string>,
    optionalLayers: bool,
    configuration: Option<DescribedPredicate>,
    applicationService: Option<DescribedPredicate>,
    drivenPort: Option<DescribedPredicate>,
    drivingPort: Option<DescribedPredicate>)
  {
    /** The predicate bound to a layer, if any. */
    function Binding(layer: Layer): Option<DescribedPredicate>
    {
      match layer
      case ConfigurationLayer => configuration
      case ApplicationServiceLayer => applicationService
      case DrivenPortLayer => drivenPort
      case DrivingPortLayer => drivingPort
    }
  }

  /** A rule as a constructor leaves it: no layers, optional layers off. */
  function Unconfigured(overriddenDescription: Option<string>): (s: RuleState)
    ensures s.overriddenDescription == overriddenDescription && !s.optionalLayers
    ensures forall layer :: s.Binding(layer) == None
  {
    RuleState(overriddenDescription, false, None, None, None, None)
  }

  /** The state after binding `p` to `layer`: that layer's field is replaced, nothing else. */
  function Bind(s: RuleState, layer: Layer, p: DescribedPredicate): (t: RuleState)
    ensures t.Binding(layer) == Some(p)
    ensures forall other :: other != layer ==> t.Binding(other) == s.Binding(other)
    ensures t.overriddenDescription == s.overriddenDescription && t.optionalLayers == s.optionalLayers
  {
    match layer
    case ConfigurationLayer => s.(configuration := Some(p))
    case ApplicationServiceLayer => s.(applicationService := Some(p))
    case DrivenPortLayer => s.(drivenPort := Some(p))
    case DrivingPortLayer => s.(drivingPort := Some(p))
  }

  /**
   * The description line of one configured layer: its label, then the
   * predicate's description in parentheses, which can be cut back out.
   */
  function LayerLine(layer: Layer, p: DescribedPredicate): (line: string)
    ensures |line| == |Label(layer)| + |p.description| + 3
  {
    Label(layer) + " (" + p.description + ")"
  }

  /** Where the label, the opening ` (`, the description and the closing `)` sit in a layer line. */
  lemma LayerLineParts(layer: Layer, p: DescribedPredicate)
    ensures var line, n := LayerLine(layer, p), |Label(layer)|;
      && line[..n] == Label(layer)
      && line[n..n + 2] == " ("
      && line[n + 2..|line| - 1] == p.description
      && line[|line| - 1] == ')'
  {
    var line, n := LayerLine(layer, p), |Label(layer)|;
    assert line == Label(layer) + " (" + p.description + ")";
  }

  /** The line a layer contributes: none when unbound, its one layer line when bound. */
  function LineIf(layer: Layer, binding: Option<DescribedPredicate>): (lines: seq<string>)
    ensures |lines| <= 1
    ensures |lines| == 1 <==> binding.Some?
    ensures binding.Some? ==> lines[0] == LayerLine(layer, binding.value)
  {
    match binding
    case None => []
    case Some(p) => [LayerLine(layer, p)]
  }

  /** The first opening parenthesis of a layer line is the one right after its label. */
  lemma OpenParenAfterLabel(layer: Layer, p: DescribedPredicate)
    ensures LayerLine(layer, p)[|Label(layer)| + 1] == '('
    ensures forall i :: 0 <= i <= |Label(layer)| ==> LayerLine(layer, p)[i] != '('
  {
    var line, n := LayerLine(layer, p), |Label(layer)|;
    LayerLineParts(layer, p);
    assert line[n..n + 2] == " (";
    forall i | 0 <= i <= n
      ensures line[i] != '('
    {
      if i < n {
        assert line[i] == line[..n][i];
      }
    }
  }

  /** A layer line determines its layer and its predicate's description. */
  lemma LayerLineParses(l1: Layer, p1: DescribedPredicate, l2: Layer, p2: DescribedPredicate)
    requires LayerLine(l1, p1) == LayerLine(l2, p2)
    ensures l1 == l2 && p1.description == p2.description
  {
    OpenParenAfterLabel(l1, p1);
    OpenParenAfterLabel(l2, p2);
    var line, n := LayerLine(l1, p1), |Label(l1)|;
    assert n == |Label(l2)| by {
      assert line[n + 1] == '(' && line[|Label(l2)| + 1] == '(';
    }
    LayerLineParts(l1, p1);
    LayerLineParts(l2, p2);
    assert Label(l1) == line[..n] == Label(l2);
    assert l1 == l2 by {
      match l1
      case ConfigurationLayer =>
      case ApplicationServiceLayer =>
      case DrivenPortLayer =>
      case DrivingPortLayer =>
    }
  }

  /**
   * The lines of the generated description, collected as the rule collects
   * them: the header, then one line per bound layer in canonical order.
   */
  function Lines(s: RuleState): (lines: seq<string>)
    ensures lines == [Header] + LayerLines(s, CanonicalOrder)
  {
    var c := CanonicalOrder;
    assert c[1..][1..][1..][1..] == [];
    assert LayerLines(s, c[1..][1..][1..]) == LineIf(DrivingPortLayer, s.drivingPort);
    assert LayerLines(s, c[1..][1..]) == LineIf(DrivenPortLayer, s.drivenPort) + LineIf(DrivingPortLayer, s.drivingPort);
    assert LayerLines(s, c[1..]) == LineIf(ApplicationServiceLayer, s.applicationService) + LayerLines(s, c[1..][1..]);
    assert LayerLines(s, c) == LineIf(ConfigurationLayer, s.configuration) + LayerLines(s, c[1..]);
    [Header]
    + LineIf(ConfigurationLayer, s.configuration)
    + LineIf(ApplicationServiceLayer, s.applicationService)
    + LineIf(DrivenPortLayer, s.drivenPort)
    + LineIf(DrivingPortLayer, s.drivingPort)
  }

  /** The rule's description: the override if there is one, else the lines joined. */
  function Render(s: RuleState, lineSeparator: string): (d: string)
    ensures s.overriddenDescription.Some? ==> d == s.overriddenDescription.value
    ensures s.overriddenDescription.None?
            ==> d == Join([Header] + LayerLines(s, CanonicalOrder), lineSeparator)
  {
    match s.overriddenDescription
    case Some(d) => d
    case None => Join(Lines(s), lineSeparator)
  }

  // An independent view of the layer lines: one line per bound layer of any
  // list of layers, used to state what the canonical order means.

  function LayerLines(s: RuleState, layers: seq<Layer>): seq<string>
  {
    if |layers| == 0 then []
    else LineIf(layers[0], s.Binding(layers[0])) + LayerLines(s, layers[1..])
  }

  /** How many of `layers` have a predicate bound. */
  function BoundAmong(s: RuleState, layers: seq<Layer>): nat
  {
    if |layers| == 0 then 0
    else (if s.Binding(layers[0]).Some? then 1 else 0) + BoundAmong(s, layers[1..])
  }

  function ConfiguredCount(s: RuleState): nat
  {
    BoundAmong(s, CanonicalOrder)
  }

  /** How many layers earlier in the canonical order than `layer` are configured. */
  function ConfiguredBefore(s: RuleState, layer: Layer): nat
  {
    BoundAmong(s, CanonicalOrder[..Rank(layer)])
  }

  lemma {:induction false} LayerLinesCount(s: RuleState, layers: seq<Layer>)
    ensures |LayerLines(s, layers)| == BoundAmong(s, layers)
  {
    if |layers| > 0 {
      LayerLinesCount(s, layers[1..]);
    }
  }

  /** A bound layer's line sits after the lines of the bound layers before it. */
  lemma {:induction false} LayerLineAt(s: RuleState, layers: seq<Layer>, k: nat)
    requires k < |layers| && s.Binding(layers[k]).Some?
    ensures BoundAmong(s, layers[..k]) < |LayerLines(s, layers)|
    ensures LayerLines(s, layers)[BoundAmong(s, layers[..k])]
         == LayerLine(layers[k], s.Binding(layers[k]).value)
  {
    var head := LineIf(layers[0], s.Binding(layers[0]));
    assert LayerLines(s, layers) == head + LayerLines(s, layers[1..]);
    if k == 0 {
      assert layers[..0] == [];
    } else {
      assert layers[..k][0] == layers[0] && layers[..k][1..] == layers[1..][..k - 1];
      assert BoundAmong(s, layers[..k]) == |head| + BoundAmong(s, layers[1..][..k - 1]);
      LayerLineAt(s, layers[1..], k - 1);
    }
  }

  /** The position in `layers` of the bound layer whose line is line `i`. */
  function LayerOfLine(s: RuleState, layers: seq<Layer>, i: nat): (k: nat)
    requires i < |LayerLines(s, layers)|
    ensures k < |layers| && s.Binding(layers[k]).Some?
    ensures BoundAmong(s, layers[..k]) == i
    ensures LayerLines(s, layers)[i] == LayerLine(layers[k], s.Binding(layers[k]).value)
    decreases |layers|
  {
    var head := LineIf(layers[0], s.Binding(layers[0]));
    if i < |head| then
      assert layers[..0] == [];
      0
    else
      var k' := LayerOfLine(s, layers[1..], i - |head|);
      assert layers[..k' + 1][1..] == layers[1..][..k'];
      k' + 1
  }

  /** Bound layers keep their relative order in the lines. */
  lemma {:induction false} BoundAmongPrefixGrows(s: RuleState, layers: seq<Layer>, j: nat, k: nat)
    requires j < k <= |layers| && s.Binding(layers[j]).Some?
    ensures BoundAmong(s, layers[..j]) < BoundAmong(s, layers[..k])
  {
    if j > 0 {
      assert layers[..j][1..] == layers[1..][..j - 1];
      assert layers[..k][1..] == layers[1..][..k - 1];
      BoundAmongPrefixGrows(s, layers[1..], j - 1, k - 1);
    } else {
      assert layers[..k][0] == layers[0];
    }
  }

  /** k configured layers give k + 1 lines. */
  lemma LineCount(s: RuleState)
    ensures |Lines(s)| == 1 + ConfiguredCount(s)
  {
    LayerLinesCount(s, CanonicalOrder);
  }

  /** A configured layer adds its own line, after the header and the configured layers before it. */
  lemma BoundLayerLine(s: RuleState, layer: Layer)
    requires s.Binding(layer).Some?
    ensures 1 + ConfiguredBefore(s, layer) < |Lines(s)|
    ensures Lines(s)[1 + ConfiguredBefore(s, layer)] == LayerLine(layer, s.Binding(layer).value)
  {
    LayerLineAt(s, CanonicalOrder, Rank(layer));
  }

  /** The configured layer that line `i` (after the header) describes. */
  function LayerOfDescriptionLine(s: RuleState, i: nat): (layer: Layer)
    requires 1 <= i < |Lines(s)|
    ensures s.Binding(layer).Some? && 1 + ConfiguredBefore(s, layer) == i
    ensures Lines(s)[i] == LayerLine(layer, s.Binding(layer).value)
  {
    var k := LayerOfLine(s, CanonicalOrder, i - 1);
    assert Rank(CanonicalOrder[k]) == k;
    CanonicalOrder[k]
  }

  /** Configured layers are described in canonical order, whatever order they were set in. */
  lemma CanonicalOrderKept(s: RuleState, first: Layer, second: Layer)
    requires s.Binding(first).Some? && s.Binding(second).Some?
    requires Rank(first) < Rank(second)
    ensures ConfiguredBefore(s, first) < ConfiguredBefore(s, second) < |Lines(s)| - 1
    ensures Lines(s)[1 + ConfiguredBefore(s, first)] == LayerLine(first, s.Binding(first).value)
    ensures Lines(s)[1 + ConfiguredBefore(s, second)] == LayerLine(second, s.Binding(second).value)
  {
    BoundAmongPrefixGrows(s, CanonicalOrder, Rank(first), Rank(second));
    BoundLayerLine(s, first);
    BoundLayerLine(s, second);
  }

  /** An unconfigured rule without override describes itself by the header alone. */
  lemma DefaultDescription(lineSeparator: string)
    ensures Render(Unconfigured(None), lineSeparator) == "Hexagonal architecture consisting of"
  {
  }

  /** An override is the whole description, whatever layers are bound. */
  lemma OverrideWins(s: RuleState, lineSeparator: string)
    requires s.overriddenDescription.Some?
    ensures Render(s, lineSeparator) == s.overriddenDescription.value
  {
  }

  /** The optional-layers flag never changes the description. */
  lemma OptionalLayersKeepDescription(s: RuleState, optionalLayers: bool, lineSeparator: string)
    ensures Render(s.(optionalLayers := optionalLayers), lineSeparator) == Render(s, lineSeparator)
  {
  }

  /** Binding the same layer twice keeps only the last predicate. */
  lemma LastWriteWins(s: RuleState, layer: Layer, p: DescribedPredicate, q: DescribedPredicate)
    ensures Bind(Bind(s, layer, p), layer, q) == Bind(s, layer, q)
  {
  }

  /** Binding different layers gives the same rule in either order. */
  lemma BindingsCommute(s: RuleState, l1: Layer, p: DescribedPredicate, l2: Layer, q: DescribedPredicate)
    requires l1 != l2
    ensures Bind(Bind(s, l1, p), l2, q) == Bind(Bind(s, l2, q), l1, p)
  {
  }

  /** A configuration with only `layer` bound renders as the header and that layer's line. */
  lemma SingleLayerDescription(layer: Layer, p: DescribedPredicate, lineSeparator: string)
    ensures Render(Bind(Unconfigured(None), layer, p), lineSeparator)
         == Header + lineSeparator + (Label(layer) + " (" + p.description + ")")
  {
    var s := Bind(Unconfigured(None), layer, p);
    assert Lines(s) == [Header, LayerLine(layer, p)];
    assert Lines(s)[1..] == [LayerLine(layer, p)];
    assert s.overriddenDescription == None;
    assert Render(s, lineSeparator) == Join(Lines(s), lineSeparator);
    assert Join(Lines(s), lineSeparator) == Header + lineSeparator + Join([LayerLine(layer, p)], lineSeparator);
  }

  /** With every layer configured, the description has all four layer lines in canonical order. */
  lemma FullDescription(s: RuleState, lineSeparator: string)
    requires s.overriddenDescription.None?
    requires s.configuration.Some? && s.applicationService.Some? && s.drivenPort.Some? && s.drivingPort.Some?
    ensures Render(s, lineSeparator)
         == Header
            + lineSeparator + LayerLine(ConfigurationLayer, s.configuration.value)
            + lineSeparator + LayerLine(ApplicationServiceLayer, s.applicationService.value)
            + lineSeparator + LayerLine(DrivenPortLayer, s.drivenPort.value)
            + lineSeparator + LayerLine(DrivingPortLayer, s.drivingPort.value)
  {
    var l1 := LayerLine(ConfigurationLayer, s.configuration.value);
    var l2 := LayerLine(ApplicationServiceLayer, s.applicationService.value);
    var l3 := LayerLine(DrivenPortLayer, s.drivenPort.value);
    var l4 := LayerLine(DrivingPortLayer, s.drivingPort.value);
    var lines := [Header, l1, l2, l3, l4];
    assert Lines(s) == lines;
    var sep := lineSeparator;
    JoinAppend([Header], l1, sep);
    JoinAppend([Header, l1], l2, sep);
    JoinAppend([Header, l1, l2], l3, sep);
    JoinAppend([Header, l1, l2, l3], l4, sep);
    assert [Header] + [l1] == [Header, l1];
    assert [Header, l1] + [l2] == [Header, l1, l2];
    assert [Header, l1, l2] + [l3] == [Header, l1, l2, l3];
    assert [Header, l1, l2, l3] + [l4] == lines;
  }

  /** Characters below the space, such as the line terminators. */
  predicate IsControl(c: char)
  {
    c < ' '
  }

  lemma NoControlInLiterals(c: char)
    requires IsControl(c)
    ensures c !in Header && c !in " (" && c !in ")"
    ensures forall layer :: c !in Label(layer)
  {
  }

  /**
   * With a one-character control separator that no predicate description
   * contains, splitting the description at it gives back exactly the lines:
   * the header and one line per configured layer.
   */
  lemma DescriptionSplitsIntoLines(s: RuleState, c: char)
    requires s.overriddenDescription.None? && IsControl(c)
    requires forall layer :: s.Binding(layer).Some? ==> c !in s.Binding(layer).value.description
    ensures Split(Render(s, [c]), c) == Lines(s)
    ensures |Split(Render(s, [c]), c)| == 1 + ConfiguredCount(s)
  {
    NoControlInLiterals(c);
    forall i | 0 <= i < |Lines(s)|
      ensures c !in Lines(s)[i]
    {
      if i > 0 {
        var layer := LayerOfDescriptionLine(s, i);
      }
    }
    SplitJoin(Lines(s), c);
    LineCount(s);
  }

  /** The rule builder. Setters change their own field in place and return the same rule. */
  class HexagonalArchitecture {
    const overriddenDescription: Option<string>
    var optionalLayers: bool
    var configurationPredicate: Option<DescribedPredicate>
    var applicationServicePredicate: Option<DescribedPredicate>
    var drivenPortPredicate: Option<DescribedPredicate>
    var drivingPortPredicate: Option<DescribedPredicate>

    function State(): RuleState
      reads this
    {
      RuleState(overriddenDescription, optionalLayers, configurationPredicate,
                applicationServicePredicate, drivenPortPredicate, drivingPortPredicate)
    }

    /** The description this rule reports, with the platform's line separator given. */
    function Description(lineSeparator: string): (d: string)
      reads this
      ensures overriddenDescription.Some? ==> d == overriddenDescription.value
      ensures overriddenDescription.None?
              ==> d == Join([Header] + LayerLines(State(), CanonicalOrder), lineSeparator)
    {
      Render(State(), lineSeparator)
    }

    constructor ()
      ensures State() == Unconfigured(None)
    {
      overriddenDescription := None;
      optionalLayers := false;
      configurationPredicate := None;
      applicationServicePredicate := None;
      drivenPortPredicate := None;
      drivingPortPredicate := None;
    }

    constructor WithOverriddenDescription(overriddenDescription: Option<string>)
      ensures State() == Unconfigured(overriddenDescription)
    {
      this.overriddenDescription := overriddenDescription;
      optionalLayers := false;
      configurationPredicate := None;
      applicationServicePredicate := None;
      drivenPortPredicate := None;
      drivingPortPredicate := None;
    }

    method Configurations(classPredicate: DescribedPredicate) returns (r: HexagonalArchitecture)
      modifies this`configurationPredicate
      ensures r == this
      ensures State() == Bind(old(State()), ConfigurationLayer, classPredicate)
    {
      configurationPredicate := Some(classPredicate);
      r := this;
    }

    method ConfigurationsInPackages(packageIdentifiers: seq<string>) returns (r: HexagonalArchitecture)
      modifies this`configurationPredicate
      ensures r == this
      ensures State() == Bind(old(State()), ConfigurationLayer, ByPackagePredicate(packageIdentifiers))
    {
      r := Configurations(ByPackagePredicate(packageIdentifiers));
    }

    method ApplicationServices(classPredicate: DescribedPredicate) returns (r: HexagonalArchitecture)
      modifies this`applicationServicePredicate
      ensures r == this
      ensures State() == Bind(old(State()), ApplicationServiceLayer, classPredicate)
    {
      applicationServicePredicate := Some(classPredicate);
      r := this;
    }

    method ApplicationServicesInPackages(packageIdentifiers: seq<string>) returns (r: HexagonalArchitecture)
      modifies this`applicationServicePredicate
      ensures r == this
      ensures State() == Bind(old(State()), ApplicationServiceLayer, ByPackagePredicate(packageIdentifiers))
    {
      r := ApplicationServices(ByPackagePredicate(packageIdentifiers));
    }

    method DrivenPorts(classPredicate: DescribedPredicate) returns (r: HexagonalArchitecture)
      modifies this`drivenPortPredicate
      ensures r == this
      ensures State() == Bind(old(State()), DrivenPortLayer, classPredicate)
    {
      drivenPortPredicate := Some(classPredicate);
      r := this;
    }

    method DrivenPortsInPackages(packageIdentifiers: seq<string>) returns (r: HexagonalArchitecture)
      modifies this`drivenPortPredicate
      ensures r == this
      ensures State() == Bind(old(State()), DrivenPortLayer, ByPackagePredicate(packageIdentifiers))
    {
      r := DrivenPorts(ByPackagePredicate(packageIdentifiers));
    }

    method DrivingPorts(classPredicate: DescribedPredicate) returns (r: HexagonalArchitecture)
      modifies this`drivingPortPredicate
      ensures r == this
      ensures State() == Bind(old(State()), DrivingPortLayer, classPredicate)
    {
      drivingPortPredicate := Some(classPredicate);
      r := this;
    }

    method DrivingPortsInPackages(packageIdentifiers: seq<string>) returns (r: HexagonalArchitecture)
      modifies this`drivingPortPredicate
      ensures r == this
      ensures State() == Bind(old(State()), DrivingPortLayer, ByPackagePredicate(packageIdentifiers))
    {
      r := DrivingPorts(ByPackagePredicate(packageIdentifiers));
    }

    method WithOptionalLayers(optionalLayers: bool) returns (r: HexagonalArchitecture)
      modifies this`optionalLayers
      ensures r == this
      ensures State() == old(State()).(optionalLayers := optionalLayers)
    {
      this.optionalLayers := optionalLayers;
      r := this;
    }

    /** The same as WithOptionalLayers. */
    method AllowEmptyShould(allowEmptyShould: bool) returns (r: HexagonalArchitecture)
      modifies this`optionalLayers
      ensures r == this
      ensures State() == old(State()).(optionalLayers := allowEmptyShould)
    {
      r := WithOptionalLayers(allowEmptyShould);
    }

    /** A brand-new rule carrying only the new description; this rule is left as it was. */
    method As(newDescription: string) returns (r: HexagonalArchitecture)
      ensures fresh(r) && unchanged(this)
      ensures r.State() == Unconfigured(Some(newDescription))
    {
      r := new HexagonalArchitecture.WithOverriddenDescription(Some(newDescription));
    }

    /** This rule described with the reason appended, as a new rule. */
    method Because(reason: string, lineSeparator: string) returns (r: HexagonalArchitecture)
      ensures fresh(r) && unchanged(this)
      ensures r.State() == Unconfigured(Some(old(Description(lineSeparator)) + ", because " + reason))
    {
      r := As(Description(lineSeparator) + ", because " + reason);
    }
  }

  /** Entry point: a rule with no layers, no override and optional layers off. */
  method NewHexagonalArchitecture() returns (rule: HexagonalArchitecture)
    ensures fresh(rule) && rule.State() == Unconfigured(None)
  {
    rule := new HexagonalArchitecture();
  }
}
