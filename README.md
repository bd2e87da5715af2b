# Hexagonal architecture rule builder

A Dafny model of `Architectures.HexagonalArchitecture`, the ArchUnit rule of
the `archunit-hex-arch` library. The rule is configured fluently: one
optional described predicate per layer (configurations, application
services, driven ports, driving ports), an `optionalLayers` flag and an
optional overriding description. Setters change the rule in place and return
it. `getDescription()` renders the rule as a header line followed by one line
per configured layer, in a fixed order. `as(...)` and `because(...)` give new
rules that carry only a description.

Modules:

- `Wrappers` (wrappers.dfy): the `Option` type standing for Java's `Optional`.
- `Text` (text.dfy): `Join`, which joins strings the way `Collectors.joining`
  does, and `Split`, which undoes it for a one-character separator.
- `Predicates` (predicates.dfy): `DescribedPredicate`, a matcher the rule never
  looks inside plus its description; `JoinSingleQuoted` and `ByPackagePredicate`,
  the predicate built for the String-pattern setters.
- `Architectures` (architectures.dfy): the layers, a value snapshot `RuleState`
  of a rule, the rendering functions `Lines` and `Render`, the lemmas about
  them, and the class `HexagonalArchitecture`. Its fields are the Java fields.
  Its setters are methods with `modifies this`<field> frames and postconditions
  that give the new `State()` in terms of the old one. `Description(lineSeparator)`
  is `getDescription()`.
- `HexagonalArchitectureTest` (hexagonal_architecture_test.dfy): the
  description scenarios of the unit tests, written as client methods whose
  postconditions state the exact description the tests expect.

`lineSeparator()` depends on the platform, so every function that renders a
description takes the separator as a parameter.

## Model

| member | source | states |
|---|---|---|
| `Text.Join` | archunit/src/main/java/com/maikbasel/hexarch/archunit/Architectures.java:217-218 | Joining gives the empty string for no parts and a single part itself; with more parts the result starts with the first part, and `JoinAppend` puts each further part after one separator, in order |
| `Text.JoinAppend` | archunit/src/main/java/com/maikbasel/hexarch/archunit/Architectures.java:217-218 | Joining one more part onto a non-empty list adds exactly one separator and that part at the end, so parts are joined in order |
| `Text.Split` | archunit/src/main/java/com/maikbasel/hexarch/archunit/Architectures.java:217-218 | Splitting at a character always yields at least one piece, and a string without that character is its only piece |
| `Text.SplitAfterPiece` | archunit/src/main/java/com/maikbasel/hexarch/archunit/Architectures.java:217-218 | A piece free of the separator, followed by the separator, splits off as the first piece |
| `Text.SplitJoin` | archunit/src/main/java/com/maikbasel/hexarch/archunit/Architectures.java:217-218 | Splitting the joined lines at a one-character separator that no line contains gives back exactly the lines |
| `Predicates.SingleQuoted` | archunit/src/main/java/com/maikbasel/hexarch/archunit/Architectures.java:222 | A quoted identifier is the identifier between single quotes: two characters longer, a quote at each end, and the identifier itself in between |
| `Predicates.AllSingleQuoted` | archunit/src/main/java/com/maikbasel/hexarch/archunit/Architectures.java:222 | Every package identifier is single-quoted, one for one, in input order |
| `Predicates.JoinSingleQuoted` | archunit/src/main/java/com/maikbasel/hexarch/archunit/Architectures.java:222 | The joined description is empty for no identifiers and otherwise starts with the first identifier in single quotes; `ByPackagePredicateOne` and `ByPackagePredicateAppend` give the rest: `'p1', 'p2', ...` in input order |
| `Predicates.ByPackagePredicate` | archunit/src/main/java/com/maikbasel/hexarch/archunit/Architectures.java:221-223 | The predicate matches by exactly the given package identifiers, and its description opens with the first identifier single-quoted (the full form in `ByPackagePredicateOne` and `ByPackagePredicateAppend`) |
| `Predicates.ByPackagePredicateOne` | archunit/src/main/java/com/maikbasel/hexarch/archunit/Architectures.java:221-223 | The predicate for one identifier matches by that package and is described as the identifier in single quotes |
| `Predicates.ByPackagePredicateAppend` | archunit/src/main/java/com/maikbasel/hexarch/archunit/Architectures.java:221-223 | One more identifier extends the description by `, '<id>'` at its end: the quoted identifiers keep input order |
| `Architectures.Rank` | archunit/src/main/java/com/maikbasel/hexarch/archunit/Architectures.java:208-215 | Each layer has a position in the fixed order configurations, application services, driven ports, driving ports |
| `Architectures.Label` | archunit/src/main/java/com/maikbasel/hexarch/archunit/Architectures.java:209-215 | Each layer's label, the text before ` (` in the format strings, is non-empty and holds no parenthesis |
| `Architectures.Unconfigured` | archunit/src/main/java/com/maikbasel/hexarch/archunit/Architectures.java:37-50 | A new rule has the given override, optional layers off and no layer bound |
| `Architectures.Bind` | archunit/src/main/java/com/maikbasel/hexarch/archunit/Architectures.java:74-77 | Binding a predicate to a layer sets that layer and leaves every other layer, the override and the flag as they were |
| `Architectures.LayerLine` | archunit/src/main/java/com/maikbasel/hexarch/archunit/Architectures.java:209-215 | A layer's line is as long as its label plus the predicate's description plus the three characters ` (` and `)` |
| `Architectures.LayerLineParts` | archunit/src/main/java/com/maikbasel/hexarch/archunit/Architectures.java:209-215 | A layer's line is its label, then ` (`, then the predicate's description, then `)`, which is what each format string produces |
| `Architectures.OpenParenAfterLabel` | archunit/src/main/java/com/maikbasel/hexarch/archunit/Architectures.java:209-215 | In a layer line the first `(` is the one right after the label |
| `Architectures.LayerLineParses` | archunit/src/main/java/com/maikbasel/hexarch/archunit/Architectures.java:209-215 | Equal layer lines come from the same layer and the same predicate description: a line can be read back into both |
| `Architectures.LineIf` | archunit/src/main/java/com/maikbasel/hexarch/archunit/Architectures.java:208-215 | An absent predicate adds no line; a present one adds exactly one line, its layer's line |
| `Architectures.LayerLinesCount` | archunit/src/main/java/com/maikbasel/hexarch/archunit/Architectures.java:208-215 | Over any list of layers, there is one line per bound layer and none for an unbound one |
| `Architectures.LayerLineAt` | archunit/src/main/java/com/maikbasel/hexarch/archunit/Architectures.java:208-215 | A bound layer's line comes right after the lines of the bound layers listed before it |
| `Architectures.LayerOfLine` | archunit/src/main/java/com/maikbasel/hexarch/archunit/Architectures.java:208-215 | Every layer line belongs to a bound layer, at the position that the bound layers before it leave |
| `Architectures.BoundAmongPrefixGrows` | archunit/src/main/java/com/maikbasel/hexarch/archunit/Architectures.java:208-215 | A bound layer earlier in a list has fewer bound layers before it than any later position |
| `Architectures.Lines` | archunit/src/main/java/com/maikbasel/hexarch/archunit/Architectures.java:205-216 | The collected lines are the header, then one line per bound layer, taken in the canonical layer order (counted by `LineCount`, placed by `BoundLayerLine` and `LayerOfDescriptionLine`) |
| `Architectures.Render` | archunit/src/main/java/com/maikbasel/hexarch/archunit/Architectures.java:199-219 | The description is the override if present; otherwise the header and the bound layers' lines in canonical order, joined by the line separator |
| `Architectures.LineCount` | archunit/src/main/java/com/maikbasel/hexarch/archunit/Architectures.java:205-216 | k configured layers give k + 1 lines |
| `Architectures.BoundLayerLine` | archunit/src/main/java/com/maikbasel/hexarch/archunit/Architectures.java:208-215 | A configured layer's line `<label> (<description>)` sits at 1 + the number of configured layers before it in canonical order |
| `Architectures.LayerOfDescriptionLine` | archunit/src/main/java/com/maikbasel/hexarch/archunit/Architectures.java:205-216 | Every line after the header is the line of the one configured layer placed there |
| `Architectures.CanonicalOrderKept` | archunit/src/main/java/com/maikbasel/hexarch/archunit/Architectures.java:208-215 | Of two configured layers, the one earlier in canonical order has its line at a smaller position, and each line at its position is that layer's `<label> (<description>)`, whatever order they were set in |
| `Architectures.DefaultDescription` | archunit/src/main/java/com/maikbasel/hexarch/archunit/Architectures.java:205-218 | A rule with no layers and no override is described exactly as `Hexagonal architecture consisting of` |
| `Architectures.OverrideWins` | archunit/src/main/java/com/maikbasel/hexarch/archunit/Architectures.java:200-203 | With an override, the description is exactly the override, whatever layers are bound |
| `Architectures.OptionalLayersKeepDescription` | archunit/src/main/java/com/maikbasel/hexarch/archunit/Architectures.java:164-168 | The optional-layers flag never changes the description |
| `Architectures.LastWriteWins` | archunit/src/main/java/com/maikbasel/hexarch/archunit/Architectures.java:74-77 | Binding a layer twice leaves only the last predicate |
| `Architectures.BindingsCommute` | archunit/src/main/java/com/maikbasel/hexarch/archunit/Architectures.java:74-158 | Setting two different layers gives the same rule in either order |
| `Architectures.SingleLayerDescription` | archunit/src/main/java/com/maikbasel/hexarch/archunit/Architectures.java:205-218 | One configured layer renders as header, separator, `<label> (<description>)` |
| `Architectures.FullDescription` | archunit/src/main/java/com/maikbasel/hexarch/archunit/Architectures.java:205-218 | All four layers configured render as the header and the four layer lines in canonical order, separated by the line separator |
| `Architectures.NoControlInLiterals` | archunit/src/main/java/com/maikbasel/hexarch/archunit/Architectures.java:206-215 | No control character occurs in the header or the fixed parts of a layer line |
| `Architectures.DescriptionSplitsIntoLines` | archunit/src/main/java/com/maikbasel/hexarch/archunit/Architectures.java:205-218 | With a one-character control separator absent from the predicate descriptions, the description splits into exactly the header and one line per configured layer, 1 + k lines |
| `Architectures.HexagonalArchitecture.Description` | archunit/src/main/java/com/maikbasel/hexarch/archunit/Architectures.java:199-219 | `getDescription()`: the rule's override if present, else the header and the configured layers' lines in canonical order, joined by the given line separator |
| `Architectures.HexagonalArchitecture.constructor` | archunit/src/main/java/com/maikbasel/hexarch/archunit/Architectures.java:44-46 | A new rule has no override, no layers and optional layers off |
| `Architectures.HexagonalArchitecture.WithOverriddenDescription` | archunit/src/main/java/com/maikbasel/hexarch/archunit/Architectures.java:48-50 | A new rule carries the given override, no layers and optional layers off |
| `Architectures.HexagonalArchitecture.Configurations` | archunit/src/main/java/com/maikbasel/hexarch/archunit/Architectures.java:73-77 | Binds the configuration predicate in place, changes no other field, returns the same rule |
| `Architectures.HexagonalArchitecture.ConfigurationsInPackages` | archunit/src/main/java/com/maikbasel/hexarch/archunit/Architectures.java:58-61 | Same as `Configurations` applied to the package predicate described by the quoted identifiers |
| `Architectures.HexagonalArchitecture.ApplicationServices` | archunit/src/main/java/com/maikbasel/hexarch/archunit/Architectures.java:100-104 | Binds the application service predicate in place, changes no other field, returns the same rule |
| `Architectures.HexagonalArchitecture.ApplicationServicesInPackages` | archunit/src/main/java/com/maikbasel/hexarch/archunit/Architectures.java:85-88 | Same as `ApplicationServices` applied to the package predicate |
| `Architectures.HexagonalArchitecture.DrivenPorts` | archunit/src/main/java/com/maikbasel/hexarch/archunit/Architectures.java:127-131 | Binds the driven port predicate in place, changes no other field, returns the same rule |
| `Architectures.HexagonalArchitecture.DrivenPortsInPackages` | archunit/src/main/java/com/maikbasel/hexarch/archunit/Architectures.java:112-115 | Same as `DrivenPorts` applied to the package predicate |
| `Architectures.HexagonalArchitecture.DrivingPorts` | archunit/src/main/java/com/maikbasel/hexarch/archunit/Architectures.java:154-158 | Binds the driving port predicate in place, changes no other field, returns the same rule |
| `Architectures.HexagonalArchitecture.DrivingPortsInPackages` | archunit/src/main/java/com/maikbasel/hexarch/archunit/Architectures.java:139-142 | Same as `DrivingPorts` applied to the package predicate |
| `Architectures.HexagonalArchitecture.WithOptionalLayers` | archunit/src/main/java/com/maikbasel/hexarch/archunit/Architectures.java:164-168 | Sets only the optional-layers flag and returns the same rule |
| `Architectures.HexagonalArchitecture.AllowEmptyShould` | archunit/src/main/java/com/maikbasel/hexarch/archunit/Architectures.java:184-187 | Has exactly the effect of `WithOptionalLayers` |
| `Architectures.HexagonalArchitecture.As` | archunit/src/main/java/com/maikbasel/hexarch/archunit/Architectures.java:189-192 | Returns a new rule whose only content is the new description; the receiver is unchanged |
| `Architectures.HexagonalArchitecture.Because` | archunit/src/main/java/com/maikbasel/hexarch/archunit/Architectures.java:175-178 | Returns a new rule described as the receiver's description followed by `, because <reason>`; the receiver is unchanged |
| `Architectures.NewHexagonalArchitecture` | archunit/src/main/java/com/maikbasel/hexarch/archunit/Architectures.java:23-26 | The entry point yields a new rule with no layers, no override, optional layers off |
| `HexagonalArchitectureTest.ConfigurationLayerDescription` | archunit/src/test/java/com/maikbasel/hexarch/archunit/HexagonalArchitectureTest.java:13-21 | `configurations("..config..")` is described as the header, the separator and `configurations ('..config..')` |
| `HexagonalArchitectureTest.ApplicationServiceLayerDescription` | archunit/src/test/java/com/maikbasel/hexarch/archunit/HexagonalArchitectureTest.java:23-31 | The application services scenario yields the header and `application services ('..application.service..')` |
| `HexagonalArchitectureTest.DrivenPortLayerDescription` | archunit/src/test/java/com/maikbasel/hexarch/archunit/HexagonalArchitectureTest.java:33-41 | The driven ports scenario yields the header and `driven ports ('..domain.spi..')` |
| `HexagonalArchitectureTest.DrivingPortLayerDescription` | archunit/src/test/java/com/maikbasel/hexarch/archunit/HexagonalArchitectureTest.java:43-51 | The driving ports scenario yields the header and `driving ports ('..domain.api..')` |
| `HexagonalArchitectureTest.AllLayersDescription` | archunit/src/main/java/com/maikbasel/hexarch/archunit/Architectures.java:205-218 | All four layers, set in reverse order, are described as the header and the four layer lines in canonical order (the all-layers test in the suite has an empty body; this scenario and its patterns are the model's own) |
| `HexagonalArchitectureTest.AllLayersRendered` | archunit/src/main/java/com/maikbasel/hexarch/archunit/Architectures.java:205-218 | The rendered text of the four-layer scenario, line by line |
| `HexagonalArchitectureTest.LastSetterWinsDescription` | archunit/src/main/java/com/maikbasel/hexarch/archunit/Architectures.java:128-131 | Setting driven ports twice, with the flag set in between, describes only the last pattern |
| `HexagonalArchitectureTest.DefaultDescriptionOfNewRule` | archunit/src/test/java/com/maikbasel/hexarch/archunit/HexagonalArchitectureTest.java:58-63 | A new rule is described as exactly `Hexagonal architecture consisting of` |
| `HexagonalArchitectureTest.OverriddenDescription` | archunit/src/test/java/com/maikbasel/hexarch/archunit/HexagonalArchitectureTest.java:65-71 | `as("overridden")` on a new rule is described as exactly `overridden` |
| `HexagonalArchitectureTest.OverrideIgnoresReceiverLayers` | archunit/src/main/java/com/maikbasel/hexarch/archunit/Architectures.java:189-192 | `as("overridden")` on a rule that has a layer set is still described as exactly `overridden` |
| `HexagonalArchitectureTest.OverriddenDescriptionWithReason` | archunit/src/test/java/com/maikbasel/hexarch/archunit/HexagonalArchitectureTest.java:73-80 | `as("overridden").because("some reason")` is described as exactly `overridden, because some reason` |

## Left out

- `evaluate` (Architectures.java:194-197) returns `null`. No dependency checking, empty-layer failure or overlap detection exists in the code, so none is modelled. The promise in the comment at Architectures.java:161-162 that the rule fails on empty layers is not implemented, so it is not modelled either.
- `check` (Architectures.java:170-173) hands the rule to ArchUnit's `Assertions.check`. ArchUnit is not part of this model.
- Package matching by `resideInAnyPackage` and ArchUnit's validation of package identifiers are not part of this model. A predicate is an opaque `Matcher` plus its description. An identifier that ArchUnit would reject is accepted here.
- The driven and driving adapter layer names (Architectures.java:34-35) are constants only. They have no field, no setter and no description line, so they have no counterpart here.
- `lineSeparator()` is a parameter, not a fixed string.
- `Architectures.HexagonalArchitecture.Because`: `because` delegates to ArchUnit's `ArchRule.Factory.withBecause`, which is not part of this model. It is modelled as `as(getDescription() + ", because " + reason)`: a new rule with that description. That is what the test at HexagonalArchitectureTest.java:73-80 fixes. A wrapper that re-reads the receiver's description later would see setter calls made after `because`; this model does not.
- `as`, `because` and `allowEmptyShould` return Java's `ArchRule` interface type. Here they return `HexagonalArchitecture`, the class of the object they actually return.
- `Architectures.DescriptionSplitsIntoLines`: it counts lines only for a one-character separator such as `"\n"`. With the two-character Windows separator, line counting is not stated. The joined form itself (`Lines`, `Render`) covers every separator.
- Null arguments: `Optional.of` in the layer setters (Architectures.java:75, 102, 129, 156) and in `as` (Architectures.java:191) throws `NullPointerException` on a null predicate or description. Dafny's types here have no null, so that failure is not modelled.
- Only four layers have predicates. The code performs no check on a predicate's description, and the description is joined with the platform line separator rather than a fixed `\n`.
