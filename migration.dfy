/** Gating and sequencing of the one-shot migration of custom resources when
    the network implementation is being migrated. The conversions
    themselves are collaborators; only their outcomes are inputs here. */
module Migrations {
  import opened Api

  datatype Feature = EgressFirewall | Multicast | EgressIP

  /** Per-feature flags; absent as a whole means "migrate everything". */
  datatype Features = Features(egressFirewall: bool, multicast: bool, egressIP: bool)

  datatype Migration = Migration(networkType: string, features: Option<Features>)

  /** Outcome each conversion would have if it were run. */
  datatype FeatureOutcomes = FeatureOutcomes(egressFirewall: Outcome, multicast: Outcome, egressIP: Outcome)

  datatype MigrationRun = MigrationRun(ran: seq<Feature>, error: Option<ApiError>)

  const OpenShiftSDN: string := "OpenShiftSDN"
  const OVNKubernetes: string := "OVNKubernetes"

  function Flag(fs: Features, f: Feature): bool {
    match f
    case EgressFirewall => fs.egressFirewall
    case Multicast => fs.multicast
    case EgressIP => fs.egressIP
  }

  function OutcomeOf(o: FeatureOutcomes, f: Feature): Outcome {
    match f
    case EgressFirewall => o.egressFirewall
    case Multicast => o.multicast
    case EgressIP => o.egressIP
  }

  predicate Enabled(m: Migration, f: Feature) {
    m.features.None? || Flag(m.features.value, f)
  }

  /** A migration is requested: present, with a non-empty target. */
  predicate Requested(m: Option<Migration>) {
    m.Some? && m.value.networkType != ""
  }

  predicate KnownTarget(networkType: string) {
    networkType == OpenShiftSDN || networkType == OVNKubernetes
  }

  /** Runs one feature's conversion if it is enabled, after `sofar`. */
  function Step(m: Migration, o: FeatureOutcomes, f: Feature, sofar: MigrationRun): MigrationRun {
    if sofar.error.Some? || !Enabled(m, f) then sofar
    else if OutcomeOf(o, f).Fail? then MigrationRun(sofar.ran + [f], Some(OutcomeOf(o, f).error))
    else MigrationRun(sofar.ran + [f], None)
  }

  /** The migration step of a cycle. */
  function Migrate(m: Option<Migration>, o: FeatureOutcomes): MigrationRun {
    if !Requested(m) then MigrationRun([], None)
    else if !KnownTarget(m.value.networkType) then
      MigrationRun([], Some(Other("Migration.NetworkType is not OpenShiftSDN or OVNKubernetes")))
    else
      var r1 := Step(m.value, o, EgressFirewall, MigrationRun([], None));
      var r2 := Step(m.value, o, Multicast, r1);
      Step(m.value, o, EgressIP, r2)
  }

  /** Reference definition: the enabled features in the fixed order. */
  function EnabledFeatures(m: Migration): seq<Feature> {
    (if Enabled(m, EgressFirewall) then [EgressFirewall] else [])
      + (if Enabled(m, Multicast) then [Multicast] else [])
      + (if Enabled(m, EgressIP) then [EgressIP] else [])
  }

  /** Nothing runs without a requested migration; an unknown target is an
      error before any conversion runs. */
  lemma MigrationGate(m: Option<Migration>, o: FeatureOutcomes)
    ensures !Requested(m) ==> Migrate(m, o) == MigrationRun([], None)
    ensures Requested(m) && !KnownTarget(m.value.networkType) ==>
      Migrate(m, o).ran == [] && Migrate(m, o).error.Some?
  {
  }

  /** With a known target the enabled conversions run in the order
      EgressFirewall, Multicast, EgressIP up to and including the first
      failure, whose error is surfaced; later ones do not run. */
  lemma MigrationOrder(m: Migration, o: FeatureOutcomes)
    requires Requested(Some(m)) && KnownTarget(m.networkType)
    ensures InOrder(Migrate(Some(m), o), EnabledFeatures(m), o)
  {
    var e1 := if Enabled(m, EgressFirewall) then [EgressFirewall] else [];
    var e2 := if Enabled(m, Multicast) then [Multicast] else [];
    var e3 := if Enabled(m, EgressIP) then [EgressIP] else [];
    var r1 := Step(m, o, EgressFirewall, MigrationRun([], None));
    var r2 := Step(m, o, Multicast, r1);
    StepInOrder(m, o, EgressFirewall, MigrationRun([], None), []);
    assert [] + e1 == e1;
    StepInOrder(m, o, Multicast, r1, e1);
    StepInOrder(m, o, EgressIP, r2, e1 + e2);
  }

  /** What a run promises about the features it was given, in order:
      it ran a prefix of them; it succeeded iff it ran all of them and all
      succeeded; and on failure the last one it ran is the one that failed,
      after every earlier one succeeded. */
  predicate InOrder(r: MigrationRun, enabled: seq<Feature>, o: FeatureOutcomes) {
    && r.ran <= enabled
    && (r.error.None? <==> r.ran == enabled && forall f :: f in r.ran ==> OutcomeOf(o, f).Ok?)
    && (r.error.Some? ==>
          && |r.ran| > 0
          && OutcomeOf(o, r.ran[|r.ran| - 1]) == Fail(r.error.value)
          && forall j :: 0 <= j < |r.ran| - 1 ==> OutcomeOf(o, r.ran[j]).Ok?)
  }

  /** One step keeps the run in order with one more feature, if enabled. */
  lemma StepInOrder(m: Migration, o: FeatureOutcomes, f: Feature, sofar: MigrationRun, enabled: seq<Feature>)
    requires InOrder(sofar, enabled, o)
    ensures InOrder(Step(m, o, f, sofar), enabled + (if Enabled(m, f) then [f] else []), o)
  {
    var next := enabled + (if Enabled(m, f) then [f] else []);
    assert enabled <= next;
    if sofar.error.None? && Enabled(m, f) {
      var r := Step(m, o, f, sofar);
      assert r.ran == next;
      assert forall j :: 0 <= j < |r.ran| - 1 ==> r.ran[j] in sofar.ran;
    }
  }

  /** A feature whose flag is explicitly false is never migrated. */
  lemma DisabledFeatureSkipped(m: Migration, o: FeatureOutcomes, f: Feature)
    requires m.features.Some? && !Flag(m.features.value, f)
    ensures f !in Migrate(Some(m), o).ran
  {
  }

  /** The migration step as the cycle runs it: the requested target is
      checked, then the enabled conversions run in the fixed order until
      one fails. */
  method MigrateFeatures(m: Option<Migration>, o: FeatureOutcomes) returns (ran: seq<Feature>, err: Option<ApiError>)
    ensures MigrationRun(ran, err) == Migrate(m, o)
  {
    ran, err := [], None;
    if m.Some? && m.value.networkType != "" {
      var migration := m.value;
      if !(migration.networkType == OpenShiftSDN || migration.networkType == OVNKubernetes) {
        return [], Some(Other("Migration.NetworkType is not OpenShiftSDN or OVNKubernetes"));
      }
      if migration.features.None? || migration.features.value.egressFirewall {
        ran := ran + [EgressFirewall];
        if o.egressFirewall.Fail? {
          return ran, Some(o.egressFirewall.error);
        }
      }
      if migration.features.None? || migration.features.value.multicast {
        ran := ran + [Multicast];
        if o.multicast.Fail? {
          return ran, Some(o.multicast.error);
        }
      }
      if migration.features.None? || migration.features.value.egressIP {
        ran := ran + [EgressIP];
        if o.egressIP.Fail? {
          return ran, Some(o.egressIP.error);
        }
      }
    }
  }
}
