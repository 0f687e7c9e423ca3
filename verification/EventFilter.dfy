/**
 Which updates of a content the sidecar looks at: all but those that change nothing the
 sidecar does not write itself.
 */
module EventFilter {
  import opened Objects
  import opened Sidecar

  /**
   A content as the API server delivers it. The annotation map may be absent; `body` holds the rest of
   the object, its own annotation map being unused.
   */
  datatype Delivered = Delivered(version: string, managed: seq<string>, annotations: Option<Annotations>, body: Content)

  const SIDECAR_ANNOTATIONS: set<AnnotationKey> := {BeingCreated}

  /** An absent map and an empty one are the same to the comparison. */
  function Map(a: Option<Annotations>): Annotations {
    if a.Some? then a.value else map[]
  }

  function AsContent(d: Delivered): Content {
    d.body.(annotations := Map(d.annotations))
  }

  /** The comparison of API objects, which identifies absent and empty maps. */
  predicate SemanticallyEqual(d: Delivered, e: Delivered) {
    d.version == e.version && d.managed == e.managed && Map(d.annotations) == Map(e.annotations)
    && d.body.(annotations := map[]) == e.body.(annotations := map[])
  }

  /** The sidecar's annotations as in `from`, all others as in `annotations`. */
  method TakeSidecarAnnotations(annotations: Annotations, from: Annotations) returns (r: Annotations)
    ensures forall k :: Same(r, if k in SIDECAR_ANNOTATIONS then from else annotations, k)
  {
    r := annotations;
    var rest := SIDECAR_ANNOTATIONS;
    while rest != {}
      invariant rest <= SIDECAR_ANNOTATIONS
      invariant forall k :: Same(r, if k in SIDECAR_ANNOTATIONS - rest then from else annotations, k)
      decreases |rest|
    {
      var k :| k in rest;
      rest := rest - {k};
      if k in from {
        r := r[k := from[k]];
      } else {
        r := r - {k};
      }
    }
    assert SIDECAR_ANNOTATIONS - rest == SIDECAR_ANNOTATIONS;
  }

  method DropSidecarAnnotations(annotations: Annotations) returns (r: Annotations)
    ensures r == annotations - SIDECAR_ANNOTATIONS
  {
    r := annotations;
    var rest := SIDECAR_ANNOTATIONS;
    while rest != {}
      invariant rest <= SIDECAR_ANNOTATIONS
      invariant r == annotations - (SIDECAR_ANNOTATIONS - rest)
      decreases |rest|
    {
      var k :| k in rest;
      rest := rest - {k};
      r := r - {k};
    }
  }

  method ShouldEnqueueContentChange(old_: Delivered, new_: Delivered) returns (enqueue: bool)
    ensures enqueue <==> old_.version == new_.version || !OnlySidecarChanges(old_, new_)
  {
    if old_.version == new_.version {
      return true;
    }
    var sanitized := new_.(
      version := old_.version,
      managed := old_.managed,
      body := new_.body.(status := old_.body.status, finalizers := old_.body.finalizers));
    if old_.annotations.Some? {
      var annotations := TakeSidecarAnnotations(Map(sanitized.annotations), old_.annotations.value);
      sanitized := sanitized.(annotations := Some(annotations));
    } else if sanitized.annotations.Some? {
      var annotations := DropSidecarAnnotations(sanitized.annotations.value);
      sanitized := sanitized.(annotations := Some(annotations));
    }
    Sanitized(old_, new_, sanitized);
    enqueue := !SemanticallyEqual(old_, sanitized);
  }

  /** Comparing the sanitized copy is comparing what the sidecar does not own. */
  lemma Sanitized(old_: Delivered, new_: Delivered, sanitized: Delivered)
    requires sanitized.version == old_.version && sanitized.managed == old_.managed
    requires sanitized.body == new_.body.(status := old_.body.status, finalizers := old_.body.finalizers)
    requires forall k :: Same(Map(sanitized.annotations), if k in SIDECAR_ANNOTATIONS then Map(old_.annotations) else Map(new_.annotations), k)
    ensures SemanticallyEqual(old_, sanitized) <==> OnlySidecarChanges(old_, new_)
  {
    var a, b, c := Map(old_.annotations), Map(new_.annotations), Map(sanitized.annotations);
    SameMaps(a, c);
    forall k ensures Same(a, c, k) <==> (k !in SIDECAR_ANNOTATIONS ==> Same(a, b, k)) {
      assert Same(c, if k in SIDECAR_ANNOTATIONS then a else b, k);
    }
    var d, e := old_.body, new_.body;
    assert (d.(annotations := map[]) == e.(annotations := map[], status := d.status, finalizers := d.finalizers))
        <==> (d.(annotations := map[], status := None, finalizers := []) == e.(annotations := map[], status := None, finalizers := [])) by {
      if d.(annotations := map[], status := None, finalizers := []) == e.(annotations := map[], status := None, finalizers := []) {
        assert d.(annotations := map[]) == d.(annotations := map[], status := None, finalizers := []).(status := d.status, finalizers := d.finalizers);
      }
    }
  }

  predicate Same(a: Annotations, b: Annotations, k: AnnotationKey) {
    (k in a <==> k in b) && (k in a ==> a[k] == b[k])
  }

  lemma SameMaps(a: Annotations, b: Annotations)
    ensures a == b <==> forall k :: Same(a, b, k)
  {
    if forall k :: Same(a, b, k) {
      assert a.Keys == b.Keys by {
        forall k ensures k in a.Keys <==> k in b.Keys {
          assert Same(a, b, k);
        }
      }
      forall k | k in a.Keys ensures a[k] == b[k] {
        assert Same(a, b, k);
      }
    }
  }

  /** The two agree on everything but status, managed fields, finalizers and the sidecar's own annotations. */
  ghost predicate OnlySidecarChanges(d: Delivered, e: Delivered) {
    && (forall k :: k !in SIDECAR_ANNOTATIONS ==> Same(Map(d.annotations), Map(e.annotations), k))
    && d.body.(annotations := map[], status := None, finalizers := []) == e.body.(annotations := map[], status := None, finalizers := [])
  }

  /** An update that is dropped can change the sidecar's mind about a deletion only by the being-created annotation. */
  lemma DroppedUpdatesKeepShouldDelete(d: Delivered, e: Delivered)
    requires OnlySidecarChanges(d, e)
    ensures (ShouldDelete(AsContent(d)) <==> ShouldDelete(AsContent(e)))
            || !(BeingCreated in Map(d.annotations) <==> BeingCreated in Map(e.annotations))
  {
    assert Same(Map(d.annotations), Map(e.annotations), BeingDeleted);
    assert d.body.(annotations := map[], status := None, finalizers := []).deleted == d.body.deleted;
    assert e.body.(annotations := map[], status := None, finalizers := []).deleted == e.body.deleted;
  }
}
