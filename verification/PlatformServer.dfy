/** The running platform: its controllers, over one set of mutable services, refine the run of requests. */
module PlatformServer {
  import opened Providers
  import opened Registries
  import opened RegistryLaws
  import opened RegistryService
  import opened Workflow
  import opened WorkflowOutcomes
  import opened WorkflowReplay
  import opened WorkflowServices
  import opened Platform
  import opened PlatformLaws
  import opened PlatformIsolation

  /** An operation that announces nothing to the integrations only changes the store. */
  lemma QuietOperation(s: System, op: Op, ends: IntegrationKey -> int)
    requires !op.OpCreateIncident? && !op.OpDecide?
    ensures HandleStore(s, op, ends) == (System(Do(s.db, op).0, s.registry), Do(s.db, op).1)
  {
  }

  /** `s` is where the requests `log` lead from an empty store. */
  predicate Served(start: Registry, log: seq<Request>, s: System) {
    FreshRequests(System(EMPTY, start), log) && HandleAll(System(EMPTY, start), log) == s
  }

  lemma ServedNext(start: Registry, log: seq<Request>, s: System, q: Request)
    requires Served(start, log, s) && FreshRequest(s, q)
    ensures Served(start, log + [q], Handle(s, q).0)
  {
    assert (log + [q])[..|log|] == log;
  }

  class Controllers {
    const services: Services
    const configService: IntegrationConfigService
    ghost const start: Registry    // what the integrations were when serving began
    ghost var log: seq<Request>    // the requests served so far

    ghost predicate Valid()
      reads this, services, services.integrations, services.integrations.Repr
    {
      services.Valid() && configService.registry == services.integrations && this !in services.integrations.Repr
    }

    /** The state of the running objects is where the requests served so far lead. */
    ghost predicate Running()
      reads this, services, services.integrations, services.integrations.Repr
    {
      Valid() && Served(start, log, services.State())
    }

    constructor (registry: IntegrationsRegistry)
      requires registry.Valid()
      ensures Running() && services.integrations == registry && fresh(services)
      ensures start == registry.Contents && log == []
    {
      services := new Services(registry);
      configService := new IntegrationConfigService(registry);
      start, log := registry.Contents, [];
    }

    /** One request, on the mutable tables, cache and providers: the state and the reply are the specification's. */
    method Serve(q: Request) returns (r: Reply)
      requires Running() && FreshRequest(services.State(), q) && !(q.StoreRequest? && q.op.OpBlocked?)
      modifies this`log, services, services.integrations, services.integrations.Repr
      ensures Running() && log == old(log) + [q]
      ensures fresh(services.integrations.Repr - old(services.integrations.Repr))
      ensures (services.State(), r) == Handle(old(services.State()), q)
    {
      ServedNext(start, log, services.State(), q);
      if q.StoreRequest? {
        var answer := OnStore(q.op, q.ends);
        r := StoreReply(answer);
      } else {
        r := OnIntegration(q.integration, q.at);
      }
      log := log + [q];
    }

    method OnIncident(op: Op, ends: IntegrationKey -> int) returns (r: Answer)
      requires Valid() && (op.OpCreateIncident? || op.OpUpdateStatus?)
      modifies services, services.integrations, services.integrations.Repr
      ensures Valid() && fresh(services.integrations.Repr - old(services.integrations.Repr))
      ensures (services.State(), r) == HandleStore(old(services.State()), op, ends)
    {
      if op.OpCreateIncident? {
        r := services.CreateIncident(op.tenant, op.actor, op.id, op.title, op.severity, op.kind, op.at, ends);
      } else {
        QuietOperation(services.State(), op, ends);
        r := services.UpdateStatus(op.tenant, op.actor, op.id, op.to, op.at);
      }
    }

    method OnDecision(op: Op, ends: IntegrationKey -> int) returns (r: Answer)
      requires Valid() && (op.OpOpenDecision? || op.OpDecide? || op.OpCancel? || op.OpRecordOutcome?)
      modifies services, services.integrations, services.integrations.Repr
      ensures Valid() && fresh(services.integrations.Repr - old(services.integrations.Repr))
      ensures (services.State(), r) == HandleStore(old(services.State()), op, ends)
    {
      if op.OpDecide? {
        r := services.Decide(op.tenant, op.actor, op.id, op.decidedBy, op.humanDecision, op.rationale, op.at, ends);
      } else {
        QuietOperation(services.State(), op, ends);
        if op.OpOpenDecision? {
          r := services.OpenDecision(op.tenant, op.actor, op.id, op.incidentId, op.question, op.at);
        } else if op.OpCancel? {
          r := services.Cancel(op.tenant, op.actor, op.id, op.at);
        } else {
          r := services.RecordOutcome(op.tenant, op.actor, op.id, op.quality, op.at);
        }
      }
    }

    method OnEvidence(op: Op) returns (r: Answer)
      requires Valid() && (op.OpAddEvidence? || op.OpAnalyze? || op.OpListAnalyses?)
      modifies services
      ensures Valid() && (services.Tables(), r) == Do(old(services.Tables()), op)
    {
      if op.OpAddEvidence? {
        r := services.AddEvidence(op.tenant, op.submitter, op.id, op.incidentId, op.decisionId, op.category, op.source, op.at);
      } else if op.OpAnalyze? {
        r := services.Analyze(op.tenant, op.actor, op.id, op.incidentId, op.dto, op.now, op.at);
      } else {
        r := services.ListAnalyses(op.tenant, op.incidentId, op.at);
      }
    }

    method OnGraph(op: Op) returns (r: Answer)
      requires Valid() && (op.OpRelate? || op.OpConfirm? || op.OpReject? || op.OpAddEntity?)
      modifies services
      ensures Valid() && (services.Tables(), r) == Do(old(services.Tables()), op)
    {
      if op.OpRelate? {
        r := services.Relate(op.tenant, op.actor, op.id, op.fromId, op.toId, op.evidenceId, op.at);
      } else if op.OpConfirm? {
        r := services.Confirm(op.tenant, op.actor, op.id, op.at);
      } else if op.OpReject? {
        r := services.Reject(op.tenant, op.actor, op.id, op.at);
      } else {
        r := services.AddEntity(op.tenant, op.id, op.at);
      }
    }

    method OnMember(op: Op) returns (r: Answer)
      requires Valid() && (op.OpAddMember? || op.OpRemoveMember?)
      modifies services
      ensures Valid() && (services.Tables(), r) == Do(old(services.Tables()), op)
    {
      if op.OpAddMember? {
        r := services.AddMember(op.tenant, op.user, op.at);
      } else {
        r := services.RemoveMember(op.tenant, op.user, op.at);
      }
    }

    method OnStore(op: Op, ends: IntegrationKey -> int) returns (r: Answer)
      requires Valid() && !op.OpBlocked?
      modifies services, services.integrations, services.integrations.Repr
      ensures Valid() && fresh(services.integrations.Repr - old(services.integrations.Repr))
      ensures (services.State(), r) == HandleStore(old(services.State()), op, ends)
    {
      if op.OpCreateIncident? || op.OpUpdateStatus? {
        r := OnIncident(op, ends);
      } else if op.OpOpenDecision? || op.OpDecide? || op.OpCancel? || op.OpRecordOutcome? {
        r := OnDecision(op, ends);
      } else {
        QuietOperation(services.State(), op, ends);
        if op.OpAddEvidence? || op.OpAnalyze? || op.OpListAnalyses? {
          r := OnEvidence(op);
        } else if op.OpRelate? || op.OpConfirm? || op.OpReject? || op.OpAddEntity? {
          r := OnGraph(op);
        } else {
          r := OnMember(op);
        }
      }
    }

    method OnConfiguration(op: RegistryOp, at: int) returns (r: Reply)
      requires Valid() && (op.Configure? || op.UpdateStatus? || op.Remove?)
      modifies services.integrations
      ensures Valid() && fresh(services.integrations.Repr - old(services.integrations.Repr))
      ensures services.integrations.Contents == Apply(old(services.integrations.Contents), op)
      ensures r == IntegrationReply(old(services.integrations.Contents), op, at)
    {
      match op
      case Configure(t, k, credentials, iv, when) =>
        var s := configService.Configure(t, k, credentials, iv, when);
        r := Summaries([s]);
      case UpdateStatus(t, k, status, when) =>
        var s := configService.UpdateStatus(t, k, status, when);
        r := if s.Some? then Summaries([s.value]) else NotConfigured;
      case Remove(t, k) =>
        configService.Remove(t, k);
        r := Acknowledged;
    }

    method OnSummary(op: RegistryOp, at: int) returns (r: Reply)
      requires Valid() && (op.GetProvider? || op.ListAll?)
      modifies services.integrations
      ensures Valid() && fresh(services.integrations.Repr - old(services.integrations.Repr))
      ensures services.integrations.Contents == Apply(old(services.integrations.Contents), op)
      ensures r == IntegrationReply(old(services.integrations.Contents), op, at)
    {
      if op.GetProvider? {
        var row := RowOf(services.integrations.configs, op.tenant, op.key);
        var s := configService.ToSummary(op.tenant, op.key, row, at);
        r := Summaries([s]);
      } else {
        var all := configService.ListAll(op.tenant, at);
        r := Summaries(all);
      }
    }

    method OnIntegration(op: RegistryOp, at: int) returns (r: Reply)
      requires Valid()
      modifies services, services.integrations, services.integrations.Repr
      ensures Valid() && fresh(services.integrations.Repr - old(services.integrations.Repr))
      ensures (services.State(), r) == Handle(old(services.State()), IntegrationRequest(op, at))
    {
      if op.Notify? {
        services.Announce(op.broadcast);
        r := Acknowledged;
      } else if op.GetProvider? || op.ListAll? {
        r := OnSummary(op, at);
      } else {
        r := OnConfiguration(op, at);
      }
    }
  }

  /** Whatever requests have been served, the mutable tables obey the workflow laws. */
  lemma TablesObeyTheLaws(c: Controllers, id: Id)
    requires c.Running()
    ensures LogsReplay(c.services.Tables(), id)
    ensures RequestsTick(c.log) ==> OutcomeHolds(c.services.Tables(), id)
  {
    PlatformLogsReplay(c.start, c.log, id);
    if RequestsTick(c.log) {
      PlatformOutcomesLinkInformingAnalysis(c.start, c.log, id);
    }
  }

  /** And whatever they list is complete, and replays what was answered when it was made. */
  lemma TablesListWhatWasAnswered(c: Controllers, t: TenantId, incidentId: Id, listed: Listed)
    requires c.Running() && HasIncident(c.services.Tables(), t, incidentId)
    ensures ListsAll(c.services.Tables(), t, incidentId)
    ensures listed in ListAnalyses(c.services.Tables(), t, incidentId).all ==>
              exists i :: 0 <= i < |c.log|
                          && ListedFromRequest(c.start, c.log, listed, c.services.incidents[incidentId].severity, i)
  {
    PlatformListReplaysStoredScores(c.start, c.log, t, incidentId, listed);
  }

  lemma TablesListEveryAnswer(c: Controllers, i: nat, a: Analysis)
    requires c.Running() && i < |c.log| && Answered(c.start, c.log, i, a)
    ensures Lists(c.services.Tables(), a.tenant, a.incidentId, a)
  {
    AnsweredIsListed(c.start, c.log, i, a);
  }

  /** Two running platforms that have served a tenant the same requests look the same to it. */
  lemma ServedTenantsAreIsolated(c: Controllers, c': Controllers, t: TenantId)
    requires c.Running() && c'.Running() && Agree(c.start, c'.start, t)
    requires OwnRequests(c.log, t) == OwnRequests(c'.log, t)
    ensures Alike(c.services.State(), c'.services.State(), t)
  {
    TenantsAreIsolated(System(EMPTY, c.start), c.log, System(EMPTY, c'.start), c'.log, t);
  }
}
