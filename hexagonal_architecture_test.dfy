/**
 * The description scenarios of the rule's unit tests, as client code whose
 * postconditions fix the exact description each scenario yields.
 */
module HexagonalArchitectureTest {
  import opened Wrappers
  import opened Predicates
  import opened Architectures

  // Literal bridges: the lemmas below only equate the concatenations the rule
  // builds with the literal strings the tests compare against.

  lemma ReasonAppended()
    ensures "overridden" + ", because " + "some reason" == "overridden, because some reason"
  {
  }

  // Each layer line of the scenarios, as the pieces it is formatted from and
  // as the literal the tests compare against.

  lemma ConfigurationsLine()
    ensures "configurations" + " (" + ("'" + "..config.." + "'") + ")" == "configurations ('..config..')"
  {
  }

  lemma ApplicationServicesLine()
    ensures "application services" + " (" + ("'" + "..application.service.." + "'") + ")" == "application services ('..application.service..')"
  {
    assert "'" + "..application.service.." + "'" == "'..application.service..'";
    assert "application services" + " (" == "application services (";
    assert "application services (" + "'..application.service..'" == "application services ('..application.service..'";
  }

  lemma DrivenPortsLine()
    ensures "driven ports" + " (" + ("'" + "..domain.spi.." + "'") + ")" == "driven ports ('..domain.spi..')"
  {
  }

  lemma DrivingPortsLine()
    ensures "driving ports" + " (" + ("'" + "..domain.api.." + "'") + ")" == "driving ports ('..domain.api..')"
  {
  }

  lemma SecondDrivenPortsLine()
    ensures "driven ports" + " (" + ("'" + "..second.." + "'") + ")" == "driven ports ('..second..')"
  {
  }

  method ConfigurationLayerDescription(lineSeparator: string) returns (d: string)
    ensures d == "Hexagonal architecture consisting of" + lineSeparator
              + "configurations ('..config..')"
  {
    var sut := NewHexagonalArchitecture();
    sut := sut.ConfigurationsInPackages(["..config.."]);
    d := sut.Description(lineSeparator);
    ByPackagePredicateOne("..config..");
    ConfigurationsLine();
    SingleLayerDescription(ConfigurationLayer, ByPackagePredicate(["..config.."]), lineSeparator);
  }

  method ApplicationServiceLayerDescription(lineSeparator: string) returns (d: string)
    ensures d == "Hexagonal architecture consisting of" + lineSeparator
              + "application services ('..application.service..')"
  {
    var sut := NewHexagonalArchitecture();
    sut := sut.ApplicationServicesInPackages(["..application.service.."]);
    d := sut.Description(lineSeparator);
    ByPackagePredicateOne("..application.service..");
    ApplicationServicesLine();
    SingleLayerDescription(ApplicationServiceLayer, ByPackagePredicate(["..application.service.."]), lineSeparator);
  }

  method DrivenPortLayerDescription(lineSeparator: string) returns (d: string)
    ensures d == "Hexagonal architecture consisting of" + lineSeparator
              + "driven ports ('..domain.spi..')"
  {
    var sut := NewHexagonalArchitecture();
    sut := sut.DrivenPortsInPackages(["..domain.spi.."]);
    d := sut.Description(lineSeparator);
    ByPackagePredicateOne("..domain.spi..");
    DrivenPortsLine();
    SingleLayerDescription(DrivenPortLayer, ByPackagePredicate(["..domain.spi.."]), lineSeparator);
  }

  method DrivingPortLayerDescription(lineSeparator: string) returns (d: string)
    ensures d == "Hexagonal architecture consisting of" + lineSeparator
              + "driving ports ('..domain.api..')"
  {
    var sut := NewHexagonalArchitecture();
    sut := sut.DrivingPortsInPackages(["..domain.api.."]);
    d := sut.Description(lineSeparator);
    ByPackagePredicateOne("..domain.api..");
    DrivingPortsLine();
    SingleLayerDescription(DrivingPortLayer, ByPackagePredicate(["..domain.api.."]), lineSeparator);
  }

  /** All four layers, set in reverse order, are still described in canonical order. */
  method AllLayersDescription(lineSeparator: string) returns (d: string)
    ensures d == "Hexagonal architecture consisting of"
              + lineSeparator + "configurations ('..config..')"
              + lineSeparator + "application services ('..application.service..')"
              + lineSeparator + "driven ports ('..domain.spi..')"
              + lineSeparator + "driving ports ('..domain.api..')"
  {
    var sut := NewHexagonalArchitecture();
    sut := sut.DrivingPortsInPackages(["..domain.api.."]);
    sut := sut.DrivenPortsInPackages(["..domain.spi.."]);
    sut := sut.ApplicationServicesInPackages(["..application.service.."]);
    sut := sut.ConfigurationsInPackages(["..config.."]);
    d := sut.Description(lineSeparator);
    AllLayersRendered(sut.State(), lineSeparator);
  }

  /** The four-layer text, with each layer line bridged to the test's literal. */
  lemma AllLayersRendered(s: RuleState, lineSeparator: string)
    requires s.overriddenDescription.None?
    requires s.configuration == Some(ByPackagePredicate(["..config.."]))
    requires s.applicationService == Some(ByPackagePredicate(["..application.service.."]))
    requires s.drivenPort == Some(ByPackagePredicate(["..domain.spi.."]))
    requires s.drivingPort == Some(ByPackagePredicate(["..domain.api.."]))
    ensures Render(s, lineSeparator)
         == "Hexagonal architecture consisting of"
            + lineSeparator + "configurations ('..config..')"
            + lineSeparator + "application services ('..application.service..')"
            + lineSeparator + "driven ports ('..domain.spi..')"
            + lineSeparator + "driving ports ('..domain.api..')"
  {
    ByPackagePredicateOne("..config..");
    ByPackagePredicateOne("..application.service..");
    ByPackagePredicateOne("..domain.spi..");
    ByPackagePredicateOne("..domain.api..");
    ConfigurationsLine();
    ApplicationServicesLine();
    DrivenPortsLine();
    DrivingPortsLine();
    FullDescription(s, lineSeparator);
  }

  /** Setting a layer twice describes only the last predicate. */
  method LastSetterWinsDescription(lineSeparator: string) returns (d: string)
    ensures d == "Hexagonal architecture consisting of" + lineSeparator
              + "driven ports ('..second..')"
  {
    var sut := NewHexagonalArchitecture();
    sut := sut.DrivenPortsInPackages(["..first.."]);
    sut := sut.WithOptionalLayers(true);
    sut := sut.DrivenPortsInPackages(["..second.."]);
    d := sut.Description(lineSeparator);
    var second := ByPackagePredicate(["..second.."]);
    assert sut.State() == Bind(Unconfigured(None), DrivenPortLayer, second).(optionalLayers := true);
    OptionalLayersKeepDescription(Bind(Unconfigured(None), DrivenPortLayer, second), true, lineSeparator);
    ByPackagePredicateOne("..second..");
    SecondDrivenPortsLine();
    SingleLayerDescription(DrivenPortLayer, second, lineSeparator);
  }

  method DefaultDescriptionOfNewRule(lineSeparator: string) returns (d: string)
    ensures d == "Hexagonal architecture consisting of"
  {
    var sut := NewHexagonalArchitecture();
    d := sut.Description(lineSeparator);
  }

  method OverriddenDescription(lineSeparator: string) returns (d: string)
    ensures d == "overridden"
  {
    var sut := NewHexagonalArchitecture();
    var rule := sut.As("overridden");
    d := rule.Description(lineSeparator);
  }

  /** The override replaces the description even when the receiver had layers set. */
  method OverrideIgnoresReceiverLayers(lineSeparator: string) returns (d: string)
    ensures d == "overridden"
  {
    var sut := NewHexagonalArchitecture();
    sut := sut.ConfigurationsInPackages(["..config.."]);
    var rule := sut.As("overridden");
    d := rule.Description(lineSeparator);
  }

  method OverriddenDescriptionWithReason(lineSeparator: string) returns (d: string)
    ensures d == "overridden, because some reason"
  {
    ReasonAppended();
    var sut := NewHexagonalArchitecture();
    var rule := sut.As("overridden");
    rule := rule.Because("some reason", lineSeparator);
    d := rule.Description(lineSeparator);
  }
}
