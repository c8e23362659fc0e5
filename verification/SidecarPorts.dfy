/** A sidecar has a service exactly if its annotations ask for a port. */
module SidecarPorts {
  import opened Wrappers
  import opened Json
  import opened Patching
  import opened Admission
  import opened SidecarLedger
  import opened SidecarSafety
  import opened SidecarContents
  import A = Annotations

  /** A service is recorded exactly if a port is set. */
  predicate InStep(a: A.Annots) {
    Indexed(a, A.PORT) != "" <==> Indexed(a, A.SERVICE) != ""
  }

  ghost predicate ObjectInStep(system: bool, key: Key, st: Stored) {
    st.named && !system ==> InStep(StoredAnnots(key, st))
  }

  ghost predicate AllInStep(s: Store) {
    forall k :: k in s.objects ==> ObjectInStep(s.system, k, s.objects[k])
  }

  lemma NoKeyInStep(a: A.Annots)
    requires !HasSidecarKey(a)
    ensures InStep(a)
  {
    A.OperatorKeys();
    A.PortKey();
  }

  lemma StoredInStep(s: Store, s1: Store, key: Key, doc: Json, named: bool)
    requires AllInStep(s) && s1.objects == s.objects && s1.system == s.system
    ensures AllInStep(Persist(s1, key, doc, named)) <==> ObjectInStep(s.system, key, Stored(doc, named))
  {
    var s' := Persist(s1, key, doc, named);
    assert s'.objects[key] == Stored(doc, named);
  }

  lemma ServiceForPort(s: Store, a: A.Annots, o: Outcomes)
    requires CreateEffects(s, a, o).1.Some?
    ensures var n := CreateEffects(s, a, o).1.value;
      n.configMap != "" && (n.service != "" <==> Indexed(a, A.PORT) != "")
  {
  }

  lemma CreatedInStep(key: Key, doc: Json, v: View, n: Names, env: seq<EnvVar>)
    requires Decode(key.kind, doc) == Some(v) && n.configMap != ""
    requires n.service != "" <==> Indexed(AnnotsIn(v), A.PORT) != ""
    ensures InStep(StoredAnnots(key, Stored(CreatedDoc(key, doc, v, n, env), true)))
  {
    A.PortKey();
    CreatedAnnots(key, doc, v, n, env);
    AnnotatedNames(AnnotsIn(v), n);
    AnnotatedAt(AnnotsIn(v), map[A.SERVICE := n.service, A.CONFIGMAP := n.configMap], A.PORT);
  }

  lemma CreateInStep(s: Store, r: Request)
    requires r.Create? && AllInStep(s)
    ensures AllInStep(Admit(s, r).0)
  {
    var view := Decode(r.key.kind, r.doc);
    if view.Some? {
      var (v, a) := (view.value, AnnotsIn(view.value));
      if !r.named || s.system || !HasSidecarKey(a) {
        if !HasSidecarKey(a) { NoKeyInStep(a); }
        StoredInStep(s, s, r.key, r.doc, r.named);
      } else if ValidAnnots(a) {
        MutatedCreateInStep(s, r.key, r.doc, v, r.o);
      }
    }
  }

  lemma MutatedCreateInStep(s: Store, key: Key, doc: Json, v: View, o: Outcomes)
    requires Decode(key.kind, doc) == Some(v) && AllInStep(s)
    ensures var (s1, n) := CreateEffects(s, AnnotsIn(v), o);
      if n.Some? then AllInStep(Persist(s1, key, CreatedDoc(key, doc, v, n.value, o.env), true)) else AllInStep(s1)
  {
    var (s1, n) := CreateEffects(s, AnnotsIn(v), o);
    if n.Some? {
      ServiceForPort(s, AnnotsIn(v), o);
      CreatedInStep(key, doc, v, n.value, o.env);
      StoredInStep(s, s1, key, CreatedDoc(key, doc, v, n.value, o.env), true);
    }
  }

  /** The service is exchanged whenever the port changes. */
  lemma PortIsReported(kind: Kind, before: A.Annots, after: A.Annots)
    requires Indexed(before, A.PORT) != Indexed(after, A.PORT)
    ensures FlagsFor(ChangedKeys(kind, before, after)).service
  {
    A.PortKey();
    assert A.PORT in ChangedKeys(kind, before, after);
    assert A.HasPrefix(A.PORT, A.PORT);
  }

  lemma UpdatedInStep(s: Store, key: Key, doc: Json, v: View, f: Flags, o: Outcomes, before: A.Annots)
    requires Decode(key.kind, doc) == Some(v) && UpdateEffects(s, AnnotsIn(v), f, o).1.Some?
    requires InStep(before) && NamesIn(AnnotsIn(v)) == NamesIn(before)
    requires f.service || Indexed(before, A.PORT) == Indexed(AnnotsIn(v), A.PORT)
    ensures var n := UpdateEffects(s, AnnotsIn(v), f, o).1.value;
      InStep(StoredAnnots(key, Stored(UpdatedDoc(key, doc, v, f, n, o.env), true)))
  {
    var (a, n) := (AnnotsIn(v), UpdateEffects(s, AnnotsIn(v), f, o).1.value);
    A.PortKey();
    UpdatedDocAnnots(key, doc, v, f, n, o.env);
    UpdatedNames(a, f, n);
    AnnotatedAt(a, NameChanges(f, n), A.PORT);
  }

  lemma MutatedUpdateInStep(s: Store, key: Key, doc: Json, v: View, f: Flags, o: Outcomes)
    requires Decode(key.kind, doc) == Some(v) && key in s.objects && AllInStep(s) && !s.system
    requires var before := StoredAnnots(key, s.objects[key]);
      NamesIn(AnnotsIn(v)) == NamesIn(before) && (f.service || Indexed(before, A.PORT) == Indexed(AnnotsIn(v), A.PORT))
    ensures AllInStep(MutatedView(s, key, doc, v, f, o).0)
  {
    var (s1, n) := UpdateEffects(s, AnnotsIn(v), f, o);
    if n.Some? {
      var st := s.objects[key];
      assert ObjectInStep(s.system, key, st);
      if st.named { UpdatedInStep(s, key, doc, v, f, o, StoredAnnots(key, st)); }
      StoredInStep(s, s1, key, UpdatedDoc(key, doc, v, f, n.value, o.env), st.named);
    }
  }

  /** An update that sets or takes away the port while the stored object cannot be read. */
  ghost predicate PutsOutOfStep(s: Store, r: Request) {
    && r.Update? && r.key in s.objects && Decode(r.key.kind, r.doc).Some? && !s.system && !r.o.read
    && !ObjectInStep(false, r.key, Stored(r.doc, s.objects[r.key].named))
  }

  lemma UpdateInStep(s: Store, r: Request)
    requires r.Update? && AllInStep(s) && Fair(s, r)
    ensures AllInStep(Admit(s, r).0) <==> !PutsOutOfStep(s, r)
  {
    var view := Decode(r.key.kind, r.doc);
    if view.Some? && r.key in s.objects {
      var (v, a, before) := (view.value, AnnotsIn(view.value), StoredAnnots(r.key, s.objects[r.key]));
      if s.system || !r.o.read || !UpdateRequired(r.key.kind, before, a) {
        if !HasSidecarKey(a) { NoKeyInStep(a); }
        StoredInStep(s, s, r.key, r.doc, s.objects[r.key].named);
      } else if ValidAnnots(a) {
        if Indexed(before, A.PORT) != Indexed(a, A.PORT) { PortIsReported(r.key.kind, before, a); }
        MutatedUpdateInStep(s, r.key, r.doc, v, FlagsFor(ChangedKeys(r.key.kind, before, a)), r.o);
      }
    }
  }

  lemma DeleteInStep(s: Store, r: Request)
    requires r.Delete? && AllInStep(s)
    ensures AllInStep(Admit(s, r).0)
  {
  }

  // ----- runs

  ghost predicate AlwaysInStep(s: Store, requests: seq<Request>)
    decreases |requests|
  {
    AllInStep(s) && (requests == [] || AlwaysInStep(Admit(s, requests[0]).0, requests[1..]))
  }

  ghost predicate NeverOutOfStep(s: Store, requests: seq<Request>)
    decreases |requests|
  {
    requests == [] || (!PutsOutOfStep(s, requests[0]) && NeverOutOfStep(Admit(s, requests[0]).0, requests[1..]))
  }

  /** Over any fair run every named object records a service exactly if it asks for a port, all the
      time, exactly if no update sets or takes away a port while the stored object cannot be read. */
  lemma {:induction false} RunInStepIff(s: Store, requests: seq<Request>)
    requires AllInStep(s) && FairRun(s, requests)
    ensures AlwaysInStep(s, requests) <==> NeverOutOfStep(s, requests)
    decreases |requests|
  {
    if requests != [] {
      var r := requests[0];
      match r {
        case Create(_, _, _, _) => CreateInStep(s, r);
        case Update(_, _, _) => UpdateInStep(s, r);
        case Delete(_) => DeleteInStep(s, r);
      }
      if !PutsOutOfStep(s, r) { RunInStepIff(Admit(s, r).0, requests[1..]); }
    }
  }
}
