/** What the duplicating mutations copy: the loop over definitions, and the
    loop over the templates of a machine type. */
module CopyFacts {
  import opened Common
  import opened Schema
  import opened Propagation

  /** The definition-copy loop appends one copy per definition, in order,
      with consecutive fresh ids. */
  lemma {:induction false} CopyDefinitionsClosedForm(db: Db, attrs: seq<AttributeDefinition>, ntid: Id)
    ensures CopyDefinitions(db, attrs, ntid)
      == db.(definitions := db.definitions + CopiedDefinitions(attrs, ntid, db.serial),
             serial := db.serial + |attrs|)
    decreases |attrs|
  {
    if attrs != [] {
      var init := attrs[..|attrs| - 1];
      var last := attrs[|attrs| - 1];
      CopyDefinitionsClosedForm(db, init, ntid);
      assert CopiedDefinitions(attrs, ntid, db.serial)
        == CopiedDefinitions(init, ntid, db.serial) + [CopyDefinition(last, ntid, FreshId(db.serial + |init|))];
    }
  }

  /** One more turn of the definition-copy loop. */
  lemma CopyDefinitionsStep(db: Db, attrs: seq<AttributeDefinition>, j: nat, ntid: Id)
    requires j < |attrs|
    ensures var p := CopyDefinitions(db, attrs[..j], ntid);
      CopyDefinitions(db, attrs[..j + 1], ntid)
        == p.(definitions := p.definitions + [CopyDefinition(attrs[j], ntid, FreshId(p.serial))],
              serial := p.serial + 1)
  {
    assert attrs[..j + 1][..j] == attrs[..j];
    assert attrs[..j + 1][j] == attrs[j];
  }

  /** One more turn of the template-copy loop. */
  lemma CopyTemplatesStep(db: Db, ts: seq<SectionTemplate>, i: nat, newName: string)
    requires i < |ts|
    ensures CopyTemplates(db, ts[..i + 1], newName) == CopyTemplate(CopyTemplates(db, ts[..i], newName), ts[i], newName)
  {
    assert ts[..i + 1][..i] == ts[..i];
    assert ts[..i + 1][i] == ts[i];
  }

  /** "Duplicate machine type" with a free name: the type row, then the
      template-copy loop over the templates of the original type. */
  lemma DuplicateMachineTypeAccepted(db: Db, originalType: string, newName: string)
    requires !TypeNameTaken(db.machineTypes, newName)
    ensures var db1 := db.(machineTypes := db.machineTypes + [MachineType(FreshId(db.serial), newName, None, None, None)],
                           serial := db.serial + 1);
      DuplicateMachineType(db, originalType, newName) == Ok(CopyTemplates(db1, TemplatesOfType(db1.templates, originalType), newName))
  {
    var db1 := db.(machineTypes := db.machineTypes + [MachineType(FreshId(db.serial), newName, None, None, None)],
                   serial := db.serial + 1);
    var r := CopyTemplates(db1, TemplatesOfType(db1.templates, originalType), newName);
    assert DuplicateMachineType(db, originalType, newName) == Ok(r);
  }

  /** The copies all belong to template `ntid` and reproduce the originals'
      name, type, required flag, order and options. */
  lemma CopiedDefinitionsShape(attrs: seq<AttributeDefinition>, ntid: Id, base: nat)
    ensures DefinitionsOf(CopiedDefinitions(attrs, ntid, base), ntid) == CopiedDefinitions(attrs, ntid, base)
    ensures Shapes(CopiedDefinitions(attrs, ntid, base)) == Shapes(attrs)
  {
    assert forall d :: d in CopiedDefinitions(attrs, ntid, base) ==> d.templateId == Some(ntid);
    DefinitionsOfAll(CopiedDefinitions(attrs, ntid, base), ntid);
    CopiedShapes(attrs, ntid, base);
  }

  lemma CopiedDefinitionAt(attrs: seq<AttributeDefinition>, ntid: Id, base: nat, k: nat)
    requires k < |attrs|
    ensures CopiedDefinitions(attrs, ntid, base)[k].templateId == Some(ntid)
  {
  }

  lemma CopiedShapes(attrs: seq<AttributeDefinition>, ntid: Id, base: nat)
    ensures Shapes(CopiedDefinitions(attrs, ntid, base)) == Shapes(attrs)
  {
    var c := CopiedDefinitions(attrs, ntid, base);
    forall k | 0 <= k < |attrs| ensures Shapes(c)[k] == Shapes(attrs)[k] {
      assert c[k] == CopyDefinition(attrs[k], ntid, FreshId(base + k));
    }
  }

  /** No definition refers to a template id that has not been handed out. */
  lemma FreshTemplateHasNoDefinitions(db: Db, n: nat)
    requires WellFormed(db) && n >= db.serial
    ensures DefinitionsOf(db.definitions, FreshId(n)) == []
  {
    DefinitionsOfNone(db.definitions, FreshId(n));
  }

  lemma CopyDefinitionsWf(db: Db, attrs: seq<AttributeDefinition>, ntid: Id)
    requires WellFormed(db) && |ntid| <= db.serial
    ensures WellFormed(CopyDefinitions(db, attrs, ntid))
  {
    CopyDefinitionsClosedForm(db, attrs, ntid);
    var c := CopiedDefinitions(attrs, ntid, db.serial);
    assert forall d :: d in c ==> |d.id| <= db.serial + |attrs| && d.templateId == Some(ntid);
  }

  /** Inserting a template with a fresh id and copying definitions into it
      keeps the tables well formed. */
  lemma WithCopiedTemplateWf(db: Db, row: SectionTemplate, source: Id)
    requires WellFormed(db) && row.id == FreshId(db.serial)
    ensures WellFormed(WithCopiedTemplate(db, row, source))
  {
    var db1 := db.(templates := db.templates + [row], serial := db.serial + 1);
    assert WellFormed(db1);
    CopyDefinitionsWf(db1, DefinitionsOf(db1.definitions, source), row.id);
  }

  /** The inserted template comes last and every added definition belongs
      to it. */
  lemma WithCopiedTemplateFresh(db: Db, row: SectionTemplate, source: Id)
    ensures var r := WithCopiedTemplate(db, row, source);
      && r.templates == db.templates + [row]
      && (forall k :: |db.definitions| <= k < |r.definitions| ==> r.definitions[k].templateId == Some(row.id))
  {
    var db1 := db.(templates := db.templates + [row], serial := db.serial + 1);
    var attrs := DefinitionsOf(db1.definitions, source);
    var r := CopyDefinitions(db1, attrs, row.id);
    assert r == WithCopiedTemplate(db, row, source);
    CopyDefinitionsClosedForm(db1, attrs, row.id);
    var c := CopiedDefinitions(attrs, row.id, db1.serial);
    assert r.definitions == db.definitions + c;
    forall k | |db.definitions| <= k < |r.definitions| ensures r.definitions[k].templateId == Some(row.id) {
      CopiedDefinitionAt(attrs, row.id, db1.serial, k - |db.definitions|);
    }
  }

  /** Copying definitions into a fresh template leaves the definitions of
      every existing template as they were. */
  lemma WithCopiedTemplateKeepsDefinitions(db: Db, row: SectionTemplate, source: Id, tid: Id)
    requires row.id == FreshId(db.serial) && |tid| <= db.serial
    ensures DefinitionsOf(WithCopiedTemplate(db, row, source).definitions, tid) == DefinitionsOf(db.definitions, tid)
  {
    WithCopiedTemplateFresh(db, row, source);
    var r := WithCopiedTemplate(db, row, source);
    var extra := r.definitions[|db.definitions|..];
    assert r.definitions == db.definitions + extra;
    DefinitionsOfAppend(db.definitions, extra, tid);
    assert forall d :: d in extra ==> d.templateId == Some(row.id);
    DefinitionsOfNone(extra, tid);
  }

  /** The fresh template gets copies of the definitions of `source`. */
  lemma WithCopiedTemplateShapes(db: Db, row: SectionTemplate, source: Id)
    requires DefinitionsBelow(db.definitions, db.serial) && row.id == FreshId(db.serial)
    ensures Shapes(DefinitionsOf(WithCopiedTemplate(db, row, source).definitions, row.id))
      == Shapes(DefinitionsOf(db.definitions, source))
  {
    var db1 := db.(templates := db.templates + [row], serial := db.serial + 1);
    var attrs := DefinitionsOf(db1.definitions, source);
    var c := CopiedDefinitions(attrs, row.id, db1.serial);
    var r := WithCopiedTemplate(db, row, source);
    assert r.definitions == db.definitions + c by {
      CopyDefinitionsClosedForm(db1, attrs, row.id);
    }
    assert DefinitionsOf(c, row.id) == c && Shapes(c) == Shapes(attrs) by {
      CopiedDefinitionsShape(attrs, row.id, db1.serial);
    }
    assert DefinitionsOf(r.definitions, row.id) == c by {
      DefinitionsOfNewTemplate(db.definitions, c, db.serial);
    }
  }

  /** The definitions of a template no old definition refers to are the
      added ones. */
  lemma DefinitionsOfNewTemplate(defs: seq<AttributeDefinition>, added: seq<AttributeDefinition>, n: nat)
    requires DefinitionsBelow(defs, n)
    requires DefinitionsOf(added, FreshId(n)) == added
    ensures DefinitionsOf(defs + added, FreshId(n)) == added
  {
    assert forall d :: d in defs ==> d.templateId != Some(FreshId(n));
    DefinitionsOfAppend(defs, added, FreshId(n));
    DefinitionsOfNone(defs, FreshId(n));
  }

  /** The template-copy loop keeps the tables well formed, and every
      template and definition it adds uses ids handed out after
      `db.serial`. */
  lemma {:induction false} CopyTemplatesFrame(db: Db, ts: seq<SectionTemplate>, newName: string)
    requires WellFormed(db)
    ensures var r := CopyTemplates(db, ts, newName);
      && WellFormed(r)
      && (forall k :: |db.templates| <= k < |r.templates| ==> |r.templates[k].id| > db.serial)
      && (forall k :: |db.definitions| <= k < |r.definitions| ==>
            r.definitions[k].templateId.Some? && |r.definitions[k].templateId.value| > db.serial)
    decreases |ts|
  {
    CopyTemplatesFresh(db, ts, newName);
    if ts != [] {
      var t := ts[|ts| - 1];
      var p := CopyTemplates(db, ts[..|ts| - 1], newName);
      CopyTemplatesFrame(db, ts[..|ts| - 1], newName);
      var row := TemplateCopy(t, FreshId(p.serial), newName);
      assert CopyTemplates(db, ts, newName) == WithCopiedTemplate(p, row, t.id);
      WithCopiedTemplateWf(p, row, t.id);
    }
  }

  /** Every template and definition in `r` beyond those of `db` uses ids
      handed out after `db.serial`. */
  ghost predicate AddsFreshTemplates(db: Db, r: Db) {
    && (forall k :: |db.templates| <= k < |r.templates| ==> |r.templates[k].id| > db.serial)
    && (forall k :: |db.definitions| <= k < |r.definitions| ==>
          r.definitions[k].templateId.Some? && |r.definitions[k].templateId.value| > db.serial)
  }

  /** The templates and definitions the template-copy loop adds use ids
      handed out after `db.serial`. */
  lemma {:induction false} CopyTemplatesFresh(db: Db, ts: seq<SectionTemplate>, newName: string)
    ensures AddsFreshTemplates(db, CopyTemplates(db, ts, newName))
    decreases |ts|
  {
    if ts != [] {
      var t := ts[|ts| - 1];
      var p := CopyTemplates(db, ts[..|ts| - 1], newName);
      CopyTemplatesFresh(db, ts[..|ts| - 1], newName);
      var row := TemplateCopy(t, FreshId(p.serial), newName);
      var r := CopyTemplates(db, ts, newName);
      assert r == WithCopiedTemplate(p, row, t.id);
      WithCopiedTemplateFresh(p, row, t.id);
      assert |row.id| > db.serial;
      forall k | |db.templates| <= k < |r.templates| ensures |r.templates[k].id| > db.serial {
        if k < |p.templates| {
          assert |p.templates[k].id| > db.serial;
          assert r.templates[k] == p.templates[k];
        } else {
          assert r.templates[k] == row;
        }
      }
      forall k | |db.definitions| <= k < |r.definitions|
        ensures r.definitions[k].templateId.Some? && |r.definitions[k].templateId.value| > db.serial
      {
        if k < |p.definitions| {
          assert p.definitions[k].templateId.Some? && |p.definitions[k].templateId.value| > db.serial;
          assert r.definitions[k] == p.definitions[k];
        } else {
          assert r.definitions[k].templateId == Some(row.id);
        }
      }
    }
  }

  /** The definitions of an original template are untouched by the copies
      made so far (they belong to newer templates). */
  lemma CopyTemplatesKeepsOriginalDefinitions(db: Db, r: Db, tid: Id)
    requires db.definitions <= r.definitions
    requires |tid| <= db.serial
    requires forall k :: |db.definitions| <= k < |r.definitions| ==>
      r.definitions[k].templateId.Some? && |r.definitions[k].templateId.value| > db.serial
    ensures DefinitionsOf(r.definitions, tid) == DefinitionsOf(db.definitions, tid)
  {
    var n := |db.definitions|;
    var extra := r.definitions[n..];
    assert r.definitions == db.definitions + extra;
    assert DefinitionsOf(extra, tid) == [] by {
      forall j | 0 <= j < |extra| ensures extra[j].templateId != Some(tid) {
        assert extra[j] == r.definitions[n + j];
      }
      DefinitionsOfNone(extra, tid);
    }
    assert DefinitionsOf(r.definitions, tid) == DefinitionsOf(db.definitions, tid) + DefinitionsOf(extra, tid) by {
      DefinitionsOfAppend(db.definitions, extra, tid);
    }
  }

  /** The copy made by the last iteration of the template-copy loop. */
  lemma CopyTemplatesCopiesLast(db: Db, ts: seq<SectionTemplate>, newName: string)
    requires WellFormed(db)
    requires ts != [] && |ts[|ts| - 1].id| <= db.serial
    ensures var r := CopyTemplates(db, ts, newName);
      var n := r.templates[|db.templates| + |ts| - 1];
      && n == TemplateCopy(ts[|ts| - 1], n.id, newName)
      && Shapes(DefinitionsOf(r.definitions, n.id)) == Shapes(DefinitionsOf(db.definitions, ts[|ts| - 1].id))
  {
    var t := ts[|ts| - 1];
    var p := CopyTemplates(db, ts[..|ts| - 1], newName);
    var row := TemplateCopy(t, FreshId(p.serial), newName);
    CopyTemplatesFrame(db, ts[..|ts| - 1], newName);
    assert CopyTemplates(db, ts, newName) == WithCopiedTemplate(p, row, t.id);
    WithCopiedTemplateFresh(p, row, t.id);
    WithCopiedTemplateShapes(p, row, t.id);
    CopyTemplatesKeepsOriginalDefinitions(db, p, t.id);
  }

  /** A copy made by an earlier iteration is not disturbed by the last one. */
  lemma CopyTemplatesCopiesEarlier(db: Db, ts: seq<SectionTemplate>, newName: string, i: nat)
    requires WellFormed(db)
    requires i < |ts| - 1
    requires var p := CopyTemplates(db, ts[..|ts| - 1], newName);
      var n := p.templates[|db.templates| + i];
      && n == TemplateCopy(ts[i], n.id, newName)
      && Shapes(DefinitionsOf(p.definitions, n.id)) == Shapes(DefinitionsOf(db.definitions, ts[i].id))
    ensures var r := CopyTemplates(db, ts, newName);
      var n := r.templates[|db.templates| + i];
      && n == TemplateCopy(ts[i], n.id, newName)
      && Shapes(DefinitionsOf(r.definitions, n.id)) == Shapes(DefinitionsOf(db.definitions, ts[i].id))
  {
    var t := ts[|ts| - 1];
    var p := CopyTemplates(db, ts[..|ts| - 1], newName);
    var row := TemplateCopy(t, FreshId(p.serial), newName);
    CopyTemplatesFrame(db, ts[..|ts| - 1], newName);
    assert CopyTemplates(db, ts, newName) == WithCopiedTemplate(p, row, t.id);
    WithCopiedTemplateFresh(p, row, t.id);
    var n := p.templates[|db.templates| + i];
    assert n in p.templates;
    WithCopiedTemplateKeepsDefinitions(p, row, t.id, n.id);
  }

  /** The `i`-th template of `ts` is copied to position `|db.templates| + i`
      under the new type name, and the copy's definitions reproduce the
      original's. */
  lemma {:induction false} CopyTemplatesCopies(db: Db, ts: seq<SectionTemplate>, newName: string, i: nat)
    requires WellFormed(db)
    requires forall j :: 0 <= j < |ts| ==> |ts[j].id| <= db.serial
    requires i < |ts|
    ensures var r := CopyTemplates(db, ts, newName);
      var n := r.templates[|db.templates| + i];
      && n == TemplateCopy(ts[i], n.id, newName)
      && Shapes(DefinitionsOf(r.definitions, n.id)) == Shapes(DefinitionsOf(db.definitions, ts[i].id))
    decreases |ts|
  {
    if i == |ts| - 1 {
      CopyTemplatesCopiesLast(db, ts, newName);
    } else {
      var init := ts[..|ts| - 1];
      assert forall j :: 0 <= j < |init| ==> init[j] == ts[j];
      CopyTemplatesCopies(db, init, newName, i);
      CopyTemplatesCopiesEarlier(db, ts, newName, i);
    }
  }
}
