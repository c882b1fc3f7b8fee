/** Pulling the images of a stack: PullStack of internal/stacks/stack_manager.go and RunDockerCommandRetry of
    internal/docker/docker.go. Whether an attempt to pull succeeds is a parameter. */
module Pull {
  import opened Wrappers
  import opened Names
  import opened Types
  import opened ComposeSpec
  import opened ComposeFacts
  import opened ComposeExact
  import Compose

  // ---------------------------------------------------------------- retries

  /** The number of attempts allowed: at least one, even if the number of retries is negative. */
  function Allowed(retries: int): nat {
    if retries < 0 then 1 else retries + 1
  }

  /** The number of attempts made for an image: up to the first success, or all that are allowed. */
  ghost predicate Attempted(succeeds: (string, nat) -> bool, image: string, retries: int, ok: bool, attempts: nat) {
    && 1 <= attempts <= Allowed(retries)
    && (forall j :: 0 <= j < attempts - 1 ==> !succeeds(image, j))
    && (if ok then succeeds(image, attempts - 1) else attempts == Allowed(retries) && !succeeds(image, attempts - 1))
  }

  method RunDockerCommandRetry(image: string, retries: int, succeeds: (string, nat) -> bool) returns (ok: bool, attempts: nat)
    ensures Attempted(succeeds, image, retries, ok, attempts)
    ensures 1 <= attempts && if ok then succeeds(image, attempts - 1) else !succeeds(image, attempts - 1)
    ensures forall j :: 0 <= j < attempts - 1 ==> !succeeds(image, j)
    ensures if retries < 0 then attempts == 1 else attempts <= retries + 1 && (!ok ==> attempts == retries + 1)
  {
    var attempt := 0;
    while true
      invariant 0 <= attempt < Allowed(retries)
      invariant forall j :: 0 <= j < attempt ==> !succeeds(image, j)
      decreases Allowed(retries) - attempt
    {
      var failed := !succeeds(image, attempt);
      if failed && attempt < retries {
        attempt := attempt + 1;
      } else {
        return !failed, attempt + 1;
      }
    }
  }

  // ---------------------------------------------------------------- the list of images

  function ManifestList(entries: seq<Option<ManifestEntry>>): seq<string> {
    if entries == [] then []
    else
      var last := entries[|entries| - 1];
      ManifestList(entries[..|entries| - 1]) + if last.Some? && !last.value.local then [DockerImage(last.value)] else []
  }

  /** The images the manifest names, local ones included. */
  function ManifestImages(entries: seq<Option<ManifestEntry>>): set<string> {
    if entries == [] then {}
    else
      var last := entries[|entries| - 1];
      ManifestImages(entries[..|entries| - 1]) + if last.Some? then {DockerImage(last.value)} else {}
  }

  function ServiceImages(plan: seq<Definition>, known: set<string>): seq<string> {
    if plan == [] then []
    else
      var image := ImageString(plan[|plan| - 1].body.image);
      ServiceImages(plan[..|plan| - 1], known) + if image in known then [] else [image]
  }

  function FixedImages(s: Stack): seq<string> {
    [ImageString(IpfsImage)] + (if s.database == PostgresDB then [ImageString(PostgresImage)] else [])
    + if s.sandboxEnabled then [ImageString(SandboxImage)] else []
  }

  function ImagesToPull(s: Stack): seq<string>
    requires ValidStack(s)
  {
    ManifestList(s.manifest.Entries()) + FixedImages(s) + ServiceImages(ExtraPlan(s), ManifestImages(s.manifest.Entries()))
  }

  method CollectImages(s: Stack) returns (images: seq<string>)
    requires ValidStack(s)
    ensures images == ImagesToPull(s)
  {
    var listed, known := CollectManifestImages(s.manifest.Entries());
    images := listed + [ImageString(IpfsImage)];
    if s.database == PostgresDB {
      images := images + [ImageString(PostgresImage)];
    }
    if s.sandboxEnabled {
      images := images + [ImageString(SandboxImage)];
    }
    assert images == listed + FixedImages(s);
    var services := CollectServiceImages(s, known);
    images := images + services;
  }

  method CollectManifestImages(entries: seq<Option<ManifestEntry>>) returns (images: seq<string>, known: set<string>)
    ensures images == ManifestList(entries) && known == ManifestImages(entries)
  {
    images, known := [], {};
    for k := 0 to |entries|
      invariant images == ManifestList(entries[..k]) && known == ManifestImages(entries[..k])
    {
      assert entries[..k + 1][..k] == entries[..k];
      if entries[k].Some? {
        var fullImage := DockerImage(entries[k].value);
        known := known + {fullImage};
        if !entries[k].value.local {
          images := images + [fullImage];
        }
      }
    }
    assert entries[..|entries|] == entries;
  }

  method CollectServiceImages(s: Stack, known: set<string>) returns (images: seq<string>)
    requires ValidStack(s)
    ensures images == ServiceImages(ExtraPlan(s), known)
  {
    var definitions := Compose.ExtraDefinitions(s);
    ghost var plan := ExtraPlan(s);
    images := [];
    for j := 0 to |definitions|
      invariant images == ServiceImages(plan[..j], known)
    {
      assert plan[..j + 1][..j] == plan[..j];
      assert Compose.View(definitions[j]) == plan[j];
      var image := ImageString(definitions[j].service.body.image);
      if image !in known {
        images := images + [image];
      }
    }
    assert plan[..|definitions|] == plan;
  }

  // ---------------------------------------------------------------- pulling

  /** First occurrences, in order. */
  function FirstOccurrences(images: seq<string>): seq<string> {
    if images == [] then []
    else
      var before := FirstOccurrences(images[..|images| - 1]);
      if images[|images| - 1] in before then before else before + [images[|images| - 1]]
  }

  lemma {:induction false} OccurrencesExact(images: seq<string>)
    ensures forall image :: image in FirstOccurrences(images) <==> image in images
    ensures forall j, k :: 0 <= j < k < |FirstOccurrences(images)| ==> FirstOccurrences(images)[j] != FirstOccurrences(images)[k]
  {
    if images != [] {
      OccurrencesExact(images[..|images| - 1]);
      assert images == images[..|images| - 1] + [images[|images| - 1]];
    }
  }

  lemma {:induction false} OccurrencesGrow(images: seq<string>, k: nat)
    requires k <= |images|
    ensures FirstOccurrences(images[..k]) <= FirstOccurrences(images)
    decreases |images| - k
  {
    if k < |images| {
      assert images[..k + 1][..k] == images[..k];
      OccurrencesGrow(images, k + 1);
    } else {
      assert images[..k] == images;
    }
  }

  class Puller {
    /** The images pulled so far, in order; hasPulled of the Go code. */
    var pulled: seq<string>
    /** How many attempts each image that was asked for has cost. */
    var attempts: map<string, nat>

    constructor ()
      ensures pulled == [] && attempts == map[]
    {
      pulled, attempts := [], map[];
    }

    /** Every image pulled so far was asked for until it came, and no other image was asked for in vain. */
    ghost predicate Progress(succeeds: (string, nat) -> bool, retries: int)
      reads this
    {
      && (forall image :: image in attempts <==> image in pulled)
      && (forall image :: image in pulled ==> Attempted(succeeds, image, retries, true, attempts[image]))
    }

    /** The images behind a pull that stopped at the first one that cannot be had. */
    ghost predicate StoppedAt(images: seq<string>, succeeds: (string, nat) -> bool, retries: int)
      reads this
    {
      var distinct, n := FirstOccurrences(images), |pulled|;
      && n < |distinct| && pulled == distinct[..n]
      && (forall image :: image in attempts <==> image in pulled || image == distinct[n])
      && (forall image :: image in pulled ==> Attempted(succeeds, image, retries, true, attempts[image]))
      && Attempted(succeeds, distinct[n], retries, false, attempts[distinct[n]])
    }

    /** Each distinct image is asked for once, in the order of the list, and never more often than the retries allow.
        The first that cannot be had ends the pull: what was pulled until then is a prefix. */
    method PullStack(s: Stack, retries: int, succeeds: (string, nat) -> bool) returns (ok: bool)
      requires ValidStack(s) && pulled == [] && attempts == map[]
      modifies this
      ensures ok ==> pulled == FirstOccurrences(ImagesToPull(s)) && Progress(succeeds, retries)
      ensures !ok ==> StoppedAt(ImagesToPull(s), succeeds, retries)
    {
      var images := CollectImages(s);
      ok := PullImages(images, retries, succeeds);
    }

    method PullImages(images: seq<string>, retries: int, succeeds: (string, nat) -> bool) returns (ok: bool)
      requires pulled == [] && attempts == map[]
      modifies this
      ensures ok ==> pulled == FirstOccurrences(images) && Progress(succeeds, retries)
      ensures !ok ==> StoppedAt(images, succeeds, retries)
    {
      for k := 0 to |images|
        invariant pulled == FirstOccurrences(images[..k]) && Progress(succeeds, retries)
      {
        var image := images[k];
        assert images[..k + 1][..k] == images[..k];
        if image !in pulled {
          var fine, count := RunDockerCommandRetry(image, retries, succeeds);
          attempts := attempts[image := count];
          if !fine {
            OccurrencesGrow(images, k + 1);
            assert FirstOccurrences(images[..k + 1]) == pulled + [image];
            return false;
          }
          pulled := pulled + [image];
        }
      }
      assert images[..|images|] == images;
      return true;
    }
  }

  // ---------------------------------------------------------------- nothing is missing

  function LocalImages(entries: seq<Option<ManifestEntry>>): set<string> {
    set k | 0 <= k < |entries| && entries[k].Some? && entries[k].value.local :: DockerImage(entries[k].value)
  }

  lemma {:induction false} ManifestImagesExact(entries: seq<Option<ManifestEntry>>, image: string)
    ensures image in ManifestList(entries) <==>
              exists k :: 0 <= k < |entries| && entries[k].Some? && !entries[k].value.local && DockerImage(entries[k].value) == image
    ensures image in ManifestImages(entries) <==>
              exists k :: 0 <= k < |entries| && entries[k].Some? && DockerImage(entries[k].value) == image
  {
    if entries != [] {
      var n := |entries| - 1;
      ManifestImagesExact(entries[..n], image);
      forall k | 0 <= k < n
        ensures entries[..n][k] == entries[k]
      {
      }
    }
  }

  lemma {:induction false} ServiceImagesExact(plan: seq<Definition>, known: set<string>, image: string)
    ensures image in ServiceImages(plan, known) <==>
              image !in known && exists j :: 0 <= j < |plan| && ImageString(plan[j].body.image) == image
  {
    if plan != [] {
      var n := |plan| - 1;
      ServiceImagesExact(plan[..n], known, image);
      forall j | 0 <= j < n
        ensures plan[..n][j] == plan[j]
      {
      }
    }
  }

  /** A manifest image is on the list, unless every entry naming it is local. */
  lemma ManifestImageListed(s: Stack, image: string)
    requires ValidStack(s) && image in ManifestImages(s.manifest.Entries())
    ensures image in ImagesToPull(s) || image in LocalImages(s.manifest.Entries())
  {
    var entries := s.manifest.Entries();
    ManifestImagesExact(entries, image);
    var k :| 0 <= k < |entries| && entries[k].Some? && DockerImage(entries[k].value) == image;
    if !entries[k].value.local {
      assert image in ManifestList(entries);
    }
  }

  lemma ExtraImageListed(s: Stack, id: ServiceId)
    requires ValidStack(s) && IsExtra(s, id)
    ensures var image := ImageString(ServiceOf(s, id).body.image);
            image in ImagesToPull(s) || image in ManifestImages(s.manifest.Entries())
  {
    var image, plan, ids := ImageString(ServiceOf(s, id).body.image), ExtraPlan(s), ExtraIds(s);
    ExtraIdsExact(s, id);
    ExtraPlanMatches(s);
    var j :| 0 <= j < |ids| && ids[j] == id;
    assert ImageString(plan[j].body.image) == image;
    ServiceImagesExact(plan, ManifestImages(s.manifest.Entries()), image);
  }

  lemma MemberImageListed(s: Stack, id: ServiceId)
    requires ValidStack(s) && ManifestComplete(s) && Present(s, id) && IsMemberService(id)
    ensures var image := ImageString(MemberBody(s, id).image);
            image in ImagesToPull(s) || image in ManifestImages(s.manifest.Entries())
  {
    var entries, fixed := s.manifest.Entries(), FixedImages(s);
    if id.Core? || id.DataExchange? {
      assert entries[0] == s.manifest.fireFly && entries[5] == s.manifest.dataExchange;
      ManifestImagesExact(entries, ImageString(MemberBody(s, id).image));
    } else {
      assert ImageString(MemberBody(s, id).image) in fixed;
    }
  }

  /** Every image of the compose file is pulled, apart from local manifest images and that of Prometheus. */
  lemma PullCovers(s: Stack, id: ServiceId)
    requires ValidStack(s) && ManifestComplete(s) && id in Assembled(s) && id != Prometheus
    ensures var image := ImageString(Assembled(s)[id].body.image);
            image in FirstOccurrences(ImagesToPull(s)) || image in LocalImages(s.manifest.Entries())
  {
    var image := ImageString(Assembled(s)[id].body.image);
    AssembledExact(s, id);
    OccurrencesExact(ImagesToPull(s));
    if IsMemberService(id) {
      MemberImageListed(s, id);
    } else {
      ExtraImageListed(s, id);
    }
    if image in ManifestImages(s.manifest.Entries()) { ManifestImageListed(s, image); }
  }

  /** The Prometheus image is pulled only if the manifest happens to name it. */
  lemma PrometheusNotPulled(s: Stack)
    requires ValidStack(s) && ImageString(PrometheusImage) in ImagesToPull(s)
    ensures ImageString(PrometheusImage) in ManifestImages(s.manifest.Entries())
  {
    var image, entries, plan, ids := ImageString(PrometheusImage), s.manifest.Entries(), ExtraPlan(s), ExtraIds(s);
    ManifestImagesExact(entries, image);
    ServiceImagesExact(plan, ManifestImages(entries), image);
    if image !in ManifestImages(entries) {
      FixedAreOther(s);
      assert image in ServiceImages(plan, ManifestImages(entries));
      var j :| 0 <= j < |plan| && ImageString(plan[j].body.image) == image;
      ExtraPlanMatches(s);
      ExtraImageOther(s, ids[j]);
    }
  }

  lemma FixedAreOther(s: Stack)
    ensures ImageString(PrometheusImage) !in FixedImages(s)
  {
    assert |ImageString(PrometheusImage)| != |ImageString(IpfsImage)|;
    assert |ImageString(PrometheusImage)| != |ImageString(PostgresImage)|;
    assert |ImageString(PrometheusImage)| != |ImageString(SandboxImage)|;
  }

  lemma ExtraImageOther(s: Stack, id: ServiceId)
    requires ValidStack(s) && IsExtra(s, id)
    requires ImageString(ServiceOf(s, id).body.image) == ImageString(PrometheusImage)
    ensures ImageString(PrometheusImage) in ManifestImages(s.manifest.Entries())
  {
    var image, entries := ServiceOf(s, id).body.image, s.manifest.Entries();
    ExtraImageKind(s, id);
    if image.FromManifest? {
      var k :| 0 <= k < |entries| && entries[k] == image.entry;
      assert |ImageString(PrometheusImage)| > 0;
      ManifestImagesExact(entries, ImageString(PrometheusImage));
    } else {
      BuiltInOther(image);
    }
  }

  lemma ExtraImageKind(s: Stack, id: ServiceId)
    requires ValidStack(s) && IsExtra(s, id)
    ensures var image := ServiceOf(s, id).body.image;
            image != PrometheusImage && (image.FromManifest? ==> image.entry in s.manifest.Entries())
  {
    var m, entries := s.manifest, s.manifest.Entries();
    assert entries[1] == m.ethconnect && entries[2] == m.evmconnect && entries[3] == m.tezosconnect && entries[4] == m.fabconnect;
    assert entries[6] == m.tokensERC1155 && entries[7] == m.tokensERC20ERC721 && entries[8] == m.signer;
  }

  lemma BuiltInOther(image: Image)
    requires !image.FromManifest? && ImageString(image) == ImageString(PrometheusImage)
    ensures image == PrometheusImage
  {
    assert |ImageString(image)| == 15;
  }

  // ---------------------------------------------------------------- nothing else, and in which order

  /** An entry of the manifest has this image. */
  ghost predicate InManifest(s: Stack, image: string, local: bool) {
    exists k :: 0 <= k < 9 && s.manifest.Entries()[k].Some? && s.manifest.Entries()[k].value.local == local
      && DockerImage(s.manifest.Entries()[k].value) == image
  }

  /** Exactly these images are pulled: those of manifest entries that are not local, that of shared storage, the
      database's and the sandbox's if they are used, and what provider and token services run that the manifest does not
      name at all. */
  lemma PulledExactly(s: Stack, image: string)
    requires ValidStack(s)
    ensures image in FirstOccurrences(ImagesToPull(s)) <==>
              || InManifest(s, image, false)
              || image == "ipfs/go-ipfs:v0.10.0"
              || (s.database == PostgresDB && image == "postgres")
              || (s.sandboxEnabled && image == "ghcr.io/hyperledger/firefly-sandbox:latest")
              || (!InManifest(s, image, true) && exists id :: IsExtra(s, id) && ImageString(ServiceOf(s, id).body.image) == image)
  {
    assert image in FirstOccurrences(ImagesToPull(s)) <==> image in ImagesToPull(s) by { OccurrencesExact(ImagesToPull(s)); }
    InThreeParts(image, ManifestList(s.manifest.Entries()), FixedImages(s), ServiceImages(ExtraPlan(s), ManifestImages(s.manifest.Entries())));
    ManifestParts(s, image);
    FixedParts(s, image);
    ServicePart(s, image);
  }

  lemma InThreeParts(image: string, a: seq<string>, b: seq<string>, c: seq<string>)
    ensures image in a + b + c <==> image in a || image in b || image in c
  {
  }

  lemma ManifestParts(s: Stack, image: string)
    ensures image in ManifestList(s.manifest.Entries()) <==> InManifest(s, image, false)
    ensures image in ManifestImages(s.manifest.Entries()) <==> InManifest(s, image, false) || InManifest(s, image, true)
  {
    ManifestImagesExact(s.manifest.Entries(), image);
  }

  lemma FixedParts(s: Stack, image: string)
    ensures image in FixedImages(s) <==>
              || image == "ipfs/go-ipfs:v0.10.0"
              || (s.database == PostgresDB && image == "postgres")
              || (s.sandboxEnabled && image == "ghcr.io/hyperledger/firefly-sandbox:latest")
  {
  }

  lemma ServicePart(s: Stack, image: string)
    requires ValidStack(s)
    ensures image in ServiceImages(ExtraPlan(s), ManifestImages(s.manifest.Entries())) <==>
              image !in ManifestImages(s.manifest.Entries()) && exists id :: IsExtra(s, id) && ImageString(ServiceOf(s, id).body.image) == image
  {
    ServiceImagesExact(ExtraPlan(s), ManifestImages(s.manifest.Entries()), image);
    ExtraImages(s, image);
  }

  lemma ExtraImages(s: Stack, image: string)
    requires ValidStack(s)
    ensures (exists j :: 0 <= j < |ExtraPlan(s)| && ImageString(ExtraPlan(s)[j].body.image) == image) <==>
            exists id :: IsExtra(s, id) && ImageString(ServiceOf(s, id).body.image) == image
  {
    var plan, ids := ExtraPlan(s), ExtraIds(s);
    ExtraPlanMatches(s);
    if j :| 0 <= j < |plan| && ImageString(plan[j].body.image) == image {
      ExtraIdsExact(s, ids[j]);
      assert IsExtra(s, ids[j]) && ImageString(ServiceOf(s, ids[j]).body.image) == image;
    }
    if id :| IsExtra(s, id) && ImageString(ServiceOf(s, id).body.image) == image {
      ExtraIdsExact(s, id);
      var j :| 0 <= j < |ids| && ids[j] == id;
      assert ImageString(plan[j].body.image) == image;
    }
  }

  /** How many of the first k entries are pulled. */
  function PulledBefore(entries: seq<Option<ManifestEntry>>, k: nat): nat
    requires k <= |entries|
  {
    if k == 0 then 0 else PulledBefore(entries, k - 1) + if entries[k - 1].Some? && !entries[k - 1].value.local then 1 else 0
  }

  /** The manifest's images come first, firefly, ethconnect, evmconnect, tezosconnect, fabconnect, data exchange, the token
      services and the signer in this order; shared storage, database and sandbox follow, and the services' own last. */
  lemma PullOrder(s: Stack)
    requires ValidStack(s)
    ensures var (m, list) := (s.manifest, ImagesToPull(s));
            var entries := [m.fireFly, m.ethconnect, m.evmconnect, m.tezosconnect, m.fabconnect, m.dataExchange,
                            m.tokensERC1155, m.tokensERC20ERC721, m.signer];
            var n := PulledBefore(entries, 9);
            && |list| > n && list[n] == "ipfs/go-ipfs:v0.10.0"
            && (s.database == PostgresDB ==> |list| > n + 1 && list[n + 1] == "postgres")
            && (s.sandboxEnabled ==> var k := if s.database == PostgresDB then n + 2 else n + 1;
                                     |list| > k && list[k] == "ghcr.io/hyperledger/firefly-sandbox:latest")
            && forall k :: 0 <= k < 9 && entries[k].Some? && !entries[k].value.local ==>
                 PulledBefore(entries, k) < n && list[PulledBefore(entries, k)] == DockerImage(entries[k].value)
  {
    var entries := s.manifest.Entries();
    assert entries[..9] == entries;
    ListedCount(entries, 9);
    forall k | 0 <= k < 9 && entries[k].Some? && !entries[k].value.local {
      ListedAt(entries, 9, k);
    }
    FixedInOrder(s, ManifestList(entries), ServiceImages(ExtraPlan(s), ManifestImages(entries)));
  }

  lemma FixedInOrder(s: Stack, first: seq<string>, last: seq<string>)
    ensures var (list, n) := (first + FixedImages(s) + last, |first|);
            && first <= list && |list| > n && list[n] == "ipfs/go-ipfs:v0.10.0"
            && (s.database == PostgresDB ==> |list| > n + 1 && list[n + 1] == "postgres")
            && (s.sandboxEnabled ==> var k := if s.database == PostgresDB then n + 2 else n + 1;
                                     |list| > k && list[k] == "ghcr.io/hyperledger/firefly-sandbox:latest")
  {
    var fixed := FixedImages(s);
    assert first + fixed + last == first + (fixed + last);
  }

  lemma {:induction false} ListedCount(entries: seq<Option<ManifestEntry>>, n: nat)
    requires n <= |entries|
    ensures |ManifestList(entries[..n])| == PulledBefore(entries, n)
  {
    if n > 0 {
      ListedCount(entries, n - 1);
      OneMoreListed(entries, n - 1);
    }
  }

  lemma {:induction false} ListedAt(entries: seq<Option<ManifestEntry>>, n: nat, k: nat)
    requires k < n <= |entries| && entries[k].Some? && !entries[k].value.local
    ensures PulledBefore(entries, k) < |ManifestList(entries[..n])|
    ensures ManifestList(entries[..n])[PulledBefore(entries, k)] == DockerImage(entries[k].value)
  {
    OneMoreListed(entries, n - 1);
    if k == n - 1 {
      ListedCount(entries, k);
    } else {
      ListedAt(entries, n - 1, k);
    }
  }

  lemma OneMoreListed(entries: seq<Option<ManifestEntry>>, n: nat)
    requires n < |entries|
    ensures ManifestList(entries[..n + 1]) == ManifestList(entries[..n])
              + if entries[n].Some? && !entries[n].value.local then [DockerImage(entries[n].value)] else []
  {
    assert entries[..n + 1][..n] == entries[..n];
  }
}
