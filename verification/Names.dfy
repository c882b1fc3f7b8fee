/** Names of compose services, containers and volumes, as the Go code puts them together, and why no two coincide. */
module Names {
  import opened Decimal

  datatype ConnectorKind = Ethconnect | Evmconnect | Tezosconnect | Fabconnect

  /** A service of the compose file. The number is the member. */
  datatype ServiceId =
    | Core(i: nat)
    | Postgres(i: nat)
    | Ipfs(i: nat)
    | DataExchange(i: nat)
    | Sandbox(i: nat)
    | Prometheus
    | Geth
    | Besu
    | Ethsigner
    | Tezossigner
    | Quorum(i: nat)
    | Tessera(i: nat)
    | Connector(kind: ConnectorKind, i: nat)
    | Tokens(i: nat, k: nat)
    | FabricCA
    | FabricOrderer
    | FabricPeer

  datatype VolumeId =
    | CoreData(i: nat)
    | PostgresData(i: nat)
    | IpfsStaging(i: nat)
    | IpfsData(i: nat)
    | DataExchangeData(i: nat)
    | PrometheusData
    | PrometheusConfig
    | GethData
    | BesuData
    | EthsignerData
    | EthsignerConfig
    | TezossignerData
    | TezossignerConfig
    | QuorumData(i: nat)
    | TesseraData(i: nat)
    | ConnectorConfig(kind: ConnectorKind, i: nat)
    | ConnectorData(kind: ConnectorKind, i: nat)
    | FabconnectReceipts(i: nat)
    | FabconnectEvents(i: nat)
    | FireflyFabric
    | FabricCAData
    | FabricOrdererData
    | FabricPeerData

  /** The part of a service name before its last number. */
  function ServiceStem(id: ServiceId): string {
    match id
    case Core(_) => "firefly_core_"
    case Postgres(_) => "postgres_"
    case Ipfs(_) => "ipfs_"
    case DataExchange(_) => "dataexchange_"
    case Sandbox(_) => "sandbox_"
    case Prometheus => "prometheus"
    case Geth => "geth"
    case Besu => "besu"
    case Ethsigner => "ethsigner"
    case Tezossigner => "tezossigner"
    case Quorum(_) => "quorum_"
    case Tessera(_) => "tessera_"
    case Connector(Ethconnect, _) => "ethconnect_"
    case Connector(Evmconnect, _) => "evmconnect_"
    case Connector(Tezosconnect, _) => "tezosconnect_"
    case Connector(Fabconnect, _) => "fabconnect_"
    case Tokens(i, _) => "tokens_" + Digits(i) + "_"
    case FabricCA => "fabric_ca"
    case FabricOrderer => "fabric_orderer"
    case FabricPeer => "fabric_peer"
  }

  predicate NumberedService(id: ServiceId) {
    !(id.Prometheus? || id.Geth? || id.Besu? || id.Ethsigner? || id.Tezossigner?
      || id.FabricCA? || id.FabricOrderer? || id.FabricPeer?)
  }

  function ServiceNumber(id: ServiceId): string {
    if id.Tokens? then Digits(id.k)
    else if NumberedService(id) then Digits(id.i)
    else ""
  }

  function ServiceName(id: ServiceId): string {
    ServiceStem(id) + ServiceNumber(id)
  }

  /** Containers carry the stack name in front; only tessera's are not named after the service. */
  function ContainerName(stack: string, id: ServiceId): string {
    stack + "_" + if id.Tessera? then "member" + (Digits(id.i) + "tessera") else ServiceName(id)
  }

  function VolumeStem(v: VolumeId): string {
    match v
    case CoreData(_) => "firefly_core_data_"
    case PostgresData(_) => "postgres_"
    case IpfsStaging(_) => "ipfs_staging_"
    case IpfsData(_) => "ipfs_data_"
    case DataExchangeData(_) => "dataexchange_"
    case PrometheusData => "prometheus_data"
    case PrometheusConfig => "prometheus_config"
    case GethData => "geth"
    case BesuData => "besu"
    case EthsignerData => "ethsigner"
    case EthsignerConfig => "ethsigner_config"
    case TezossignerData => "tezossigner"
    case TezossignerConfig => "tezossigner_config"
    case QuorumData(_) => "quorum_"
    case TesseraData(_) => "tessera_"
    case ConnectorConfig(Ethconnect, _) => "ethconnect_config_"
    case ConnectorConfig(Evmconnect, _) => "evmconnect_config_"
    case ConnectorConfig(Tezosconnect, _) => "tezosconnect_config_"
    case ConnectorConfig(Fabconnect, _) => "fabconnect_config_"
    case ConnectorData(Ethconnect, _) => "ethconnect_data_"
    case ConnectorData(Evmconnect, _) => "evmconnect_data_"
    case ConnectorData(Tezosconnect, _) => "tezosconnect_data_"
    case ConnectorData(Fabconnect, _) => "fabconnect_data_"
    case FabconnectReceipts(_) => "fabconnect_receipts_"
    case FabconnectEvents(_) => "fabconnect_events_"
    case FireflyFabric => "firefly_fabric"
    case FabricCAData => "fabric_ca"
    case FabricOrdererData => "fabric_orderer"
    case FabricPeerData => "fabric_peer"
  }

  predicate NumberedVolume(v: VolumeId) {
    !(v.PrometheusData? || v.PrometheusConfig? || v.GethData? || v.BesuData? || v.EthsignerData? || v.EthsignerConfig?
      || v.TezossignerData? || v.TezossignerConfig? || v.FireflyFabric? || v.FabricCAData? || v.FabricOrdererData?
      || v.FabricPeerData?)
  }

  function VolumeName(v: VolumeId): string {
    VolumeStem(v) + if NumberedVolume(v) then Digits(v.i) else ""
  }

  // ---------------------------------------------------------------- stems and numbers come apart again

  predicate EndsInLetter(s: string) {
    s != "" && !IsDigit(s[|s| - 1])
  }

  lemma StemUnique(a: string, x: string, b: string, y: string)
    requires EndsInLetter(a) && EndsInLetter(b) && AllDigits(x) && AllDigits(y)
    requires a + x == b + y
    ensures a == b && x == y
  {
    var s := a + x;
    assert s[|a| - 1] == a[|a| - 1] && s[|b| - 1] == b[|b| - 1];
    assert forall i :: |a| <= i < |s| ==> s[i] == x[i - |a|];
    assert forall i :: |b| <= i < |s| ==> s[i] == y[i - |b|];
    assert |a| == |b|;
    assert a == s[..|a|] == b;
    assert x == s[|a|..] == y;
  }

  lemma ServiceStemShape(id: ServiceId)
    ensures EndsInLetter(ServiceStem(id)) && AllDigits(ServiceNumber(id))
  {
  }

  /** The stem names the kind of service. */
  lemma ServiceStemsDiffer(a: ServiceId, b: ServiceId)
    requires ServiceStem(a) == ServiceStem(b)
    ensures a == b || (NumberedService(a) && NumberedService(b))
    ensures a.Tokens? <==> b.Tokens?
    ensures NumberedService(a) && NumberedService(b) && !a.Tokens? && a.i == b.i ==> a == b
  {
    if a.Tokens? {
      assert ServiceStem(a)[0] == 't' && ServiceStem(a)[1] == 'o';
    }
    if b.Tokens? {
      assert ServiceStem(b)[0] == 't' && ServiceStem(b)[1] == 'o';
    }
  }

  lemma TokensStemUnique(i: nat, j: nat)
    requires "tokens_" + Digits(i) + "_" == "tokens_" + Digits(j) + "_"
    ensures i == j
  {
    var s, t := "tokens_" + Digits(i) + "_", "tokens_" + Digits(j) + "_";
    assert Digits(i) == s[7..|s| - 1] && Digits(j) == t[7..|t| - 1];
    DigitsInjective(i, j);
  }

  /** No service of the compose file overwrites another. */
  lemma ServiceNameInjective(a: ServiceId, b: ServiceId)
    requires ServiceName(a) == ServiceName(b)
    ensures a == b
  {
    ServiceStemShape(a);
    ServiceStemShape(b);
    StemUnique(ServiceStem(a), ServiceNumber(a), ServiceStem(b), ServiceNumber(b));
    ServiceStemsDiffer(a, b);
    if a.Tokens? {
      TokensStemUnique(a.i, b.i);
      DigitsInjective(a.k, b.k);
    } else if NumberedService(a) {
      DigitsInjective(a.i, b.i);
    }
  }

  lemma VolumeStemShape(v: VolumeId)
    ensures EndsInLetter(VolumeStem(v))
  {
  }

  predicate ConnectorVolume(v: VolumeId) {
    v.ConnectorConfig? || v.ConnectorData? || v.FabconnectReceipts? || v.FabconnectEvents?
  }

  /** The stem names the kind of volume. */
  predicate StemDecides(v: VolumeId, w: VolumeId) {
    VolumeStem(v) == VolumeStem(w) ==>
      (v == w || (NumberedVolume(v) && NumberedVolume(w)))
      && (NumberedVolume(v) && NumberedVolume(w) && v.i == w.i ==> v == w)
  }

  lemma VolumeStemsDiffer(v: VolumeId, w: VolumeId)
    ensures StemDecides(v, w)
  {
    if ConnectorVolume(v) {
      ConnectorStemsDiffer(v, w);
    } else if NumberedVolume(v) {
      NumberedStemsDiffer(v, w);
    } else {
      FixedStemsDiffer(v, w);
    }
  }

  lemma ConnectorStemsDiffer(v: VolumeId, w: VolumeId)
    requires ConnectorVolume(v)
    ensures StemDecides(v, w)
  {
  }

  lemma NumberedStemsDiffer(v: VolumeId, w: VolumeId)
    requires NumberedVolume(v) && !ConnectorVolume(v)
    ensures StemDecides(v, w)
  {
  }

  lemma FixedStemsDiffer(v: VolumeId, w: VolumeId)
    requires !NumberedVolume(v)
    ensures StemDecides(v, w)
  {
  }

  lemma VolumeNameInjective(v: VolumeId, w: VolumeId)
    requires VolumeName(v) == VolumeName(w)
    ensures v == w
  {
    VolumeStemShape(v);
    VolumeStemShape(w);
    StemUnique(VolumeStem(v), if NumberedVolume(v) then Digits(v.i) else "",
               VolumeStem(w), if NumberedVolume(w) then Digits(w.i) else "");
    VolumeStemsDiffer(v, w);
    if NumberedVolume(v) && NumberedVolume(w) {
      DigitsInjective(v.i, w.i);
    }
  }

  /** Within a stack no two containers share a name. */
  lemma ContainerNameInjective(stack: string, a: ServiceId, b: ServiceId)
    requires ContainerName(stack, a) == ContainerName(stack, b)
    ensures a == b
  {
    var x, y := ContainerName("", a)[1..], ContainerName("", b)[1..];
    assert ContainerName(stack, a)[|stack| + 1..] == x;
    assert ContainerName(stack, b)[|stack| + 1..] == y;
    if !a.Tessera? && !b.Tessera? {
      ServiceNameInjective(a, b);
    } else if a.Tessera? && b.Tessera? {
      assert Digits(a.i) == x[6..|x| - 7] && Digits(b.i) == y[6..|y| - 7];
      DigitsInjective(a.i, b.i);
    } else {
      NoMemberService(if a.Tessera? then b else a);
    }
  }

  lemma NoMemberService(id: ServiceId)
    ensures ServiceName(id)[0] != 'm'
  {
    assert ServiceName(id)[0] == ServiceStem(id)[0];
  }

  // ---------------------------------------------------------------- written out

  /** The names as users see them: "docker ps" lists containers, the stack name in front. */
  lemma ServicesWrittenOut(stack: string, id: ServiceId)
    ensures match id
            case Core(i) => ServiceName(id) == "firefly_core_" + Digits(i)
            case Postgres(i) => ServiceName(id) == "postgres_" + Digits(i)
            case Ipfs(i) => ServiceName(id) == "ipfs_" + Digits(i)
            case DataExchange(i) => ServiceName(id) == "dataexchange_" + Digits(i)
            case Sandbox(i) => ServiceName(id) == "sandbox_" + Digits(i)
            case Tokens(i, k) => ServiceName(id) == "tokens_" + Digits(i) + "_" + Digits(k)
            case Connector(Ethconnect, i) => ServiceName(id) == "ethconnect_" + Digits(i)
            case Connector(Evmconnect, i) => ServiceName(id) == "evmconnect_" + Digits(i)
            case Connector(Tezosconnect, i) => ServiceName(id) == "tezosconnect_" + Digits(i)
            case Connector(Fabconnect, i) => ServiceName(id) == "fabconnect_" + Digits(i)
            case Quorum(i) => ServiceName(id) == "quorum_" + Digits(i)
            case Tessera(i) => ServiceName(id) == "tessera_" + Digits(i)
            case Prometheus => ServiceName(id) == "prometheus"
            case Geth => ServiceName(id) == "geth"
            case Besu => ServiceName(id) == "besu"
            case Ethsigner => ServiceName(id) == "ethsigner"
            case Tezossigner => ServiceName(id) == "tezossigner"
            case FabricCA => ServiceName(id) == "fabric_ca"
            case FabricOrderer => ServiceName(id) == "fabric_orderer"
            case FabricPeer => ServiceName(id) == "fabric_peer"
    ensures ContainerName(stack, id) == stack + "_" + if id.Tessera? then "member" + (Digits(id.i) + "tessera") else ServiceName(id)
  {
    Nothing(ServiceStem(id));
  }

  lemma VolumesWrittenOut(v: VolumeId)
    ensures match v
            case CoreData(i) => VolumeName(v) == "firefly_core_data_" + Digits(i)
            case PostgresData(i) => VolumeName(v) == "postgres_" + Digits(i)
            case IpfsStaging(i) => VolumeName(v) == "ipfs_staging_" + Digits(i)
            case IpfsData(i) => VolumeName(v) == "ipfs_data_" + Digits(i)
            case DataExchangeData(i) => VolumeName(v) == "dataexchange_" + Digits(i)
            case QuorumData(i) => VolumeName(v) == "quorum_" + Digits(i)
            case TesseraData(i) => VolumeName(v) == "tessera_" + Digits(i)
            case ConnectorConfig(Ethconnect, i) => VolumeName(v) == "ethconnect_config_" + Digits(i)
            case ConnectorConfig(Evmconnect, i) => VolumeName(v) == "evmconnect_config_" + Digits(i)
            case ConnectorConfig(Tezosconnect, i) => VolumeName(v) == "tezosconnect_config_" + Digits(i)
            case ConnectorConfig(Fabconnect, i) => VolumeName(v) == "fabconnect_config_" + Digits(i)
            case ConnectorData(Ethconnect, i) => VolumeName(v) == "ethconnect_data_" + Digits(i)
            case ConnectorData(Evmconnect, i) => VolumeName(v) == "evmconnect_data_" + Digits(i)
            case ConnectorData(Tezosconnect, i) => VolumeName(v) == "tezosconnect_data_" + Digits(i)
            case ConnectorData(Fabconnect, i) => VolumeName(v) == "fabconnect_data_" + Digits(i)
            case FabconnectReceipts(i) => VolumeName(v) == "fabconnect_receipts_" + Digits(i)
            case FabconnectEvents(i) => VolumeName(v) == "fabconnect_events_" + Digits(i)
            case PrometheusData => VolumeName(v) == "prometheus_data"
            case PrometheusConfig => VolumeName(v) == "prometheus_config"
            case GethData => VolumeName(v) == "geth"
            case BesuData => VolumeName(v) == "besu"
            case EthsignerData => VolumeName(v) == "ethsigner"
            case EthsignerConfig => VolumeName(v) == "ethsigner_config"
            case TezossignerData => VolumeName(v) == "tezossigner"
            case TezossignerConfig => VolumeName(v) == "tezossigner_config"
            case FireflyFabric => VolumeName(v) == "firefly_fabric"
            case FabricCAData => VolumeName(v) == "fabric_ca"
            case FabricOrdererData => VolumeName(v) == "fabric_orderer"
            case FabricPeerData => VolumeName(v) == "fabric_peer"
  {
    Nothing(VolumeStem(v));
  }

  lemma Nothing(s: string)
    ensures s + "" == s
  {
  }
}
