/** Identity resolution: e-mail addresses collected from three reports are keyed
    by their local part, so that an agent's full name can be turned into the
    address the other reports use. */
module Identity {

  import opened Wrappers
  import opened Text
  import opened Cells
  import opened Tables

  /** The key of an address: its local part, dots as spaces, lowercased, stripped. */
  function EmailKey(mail: string): (k: string)
    ensures IsKey(k) && '@' !in k
  {
    var dotless := Replace(Split(mail, '@')[0], '.', " ");
    LowerKeeps(dotless);
    StripKey(Lower(dotless));
    Strip(Lower(dotless))
  }

  /** The key of a full name: lowercased, dots as spaces, stripped. */
  function NameKey(name: string): (k: string)
    ensures IsKey(k)
  {
    LowerKeeps(name);
    StripKey(Replace(Lower(name), '.', " "));
    Strip(Replace(Lower(name), '.', " "))
  }

  /** What both keys look like: no dot, no ASCII capital, no surrounding whitespace. */
  predicate IsKey(k: string) {
    && '.' !in k
    && (forall i :: 0 <= i < |k| ==> !('A' <= k[i] <= 'Z'))
    && (k == [] || (!IsSpace(k[0]) && !IsSpace(k[|k| - 1])))
  }

  /** Stripping text without dots or capitals gives a key, and adds no `@`. */
  lemma StripKey(s: string)
    requires '.' !in s && forall x :: x in s ==> !('A' <= x <= 'Z')
    ensures IsKey(Strip(s))
    ensures '@' !in s ==> '@' !in Strip(s)
  {
    var k := Strip(s);
    forall i | 0 <= i < |k| ensures !('A' <= k[i] <= 'Z') {
      assert k[i] in s;
    }
  }

  /** Lowering adds no dot and no `@`, and leaves no ASCII capital. */
  lemma LowerKeeps(s: string)
    ensures '.' in Lower(s) ==> '.' in s
    ensures '@' in Lower(s) ==> '@' in s
    ensures forall x :: x in Lower(s) ==> !('A' <= x <= 'Z')
  {
    var r := Lower(s);
    forall x | x in r ensures !('A' <= x <= 'Z') && (x == '.' ==> '.' in s) && (x == '@' ==> '@' in s) {
      var i :| 0 <= i < |r| && r[i] == x;
      assert r[i] == LowerChar(s[i]);
    }
  }

  /** The part of an address before its first `@`. */
  function LocalPart(mail: string): string {
    Split(mail, '@')[0]
  }

  /** The non-missing values of column `name` of a report, when the report is
      given and has that column (`df[name].dropna().unique()`). */
  function EmailCells(t: Option<Table>, name: string): (cells: set<Cell>)
    requires t.Some? ==> WellFormed(t.value)
    ensures forall c :: c in cells ==> !c.Null?
  {
    if t.None? then {}
    else match Get(t.value, name)
      case None => {}
      case Some(col) => set c | c in col && !c.Null?
  }

  lemma NoEmails(t: Option<Table>, name: string)
    requires t.Some? ==> WellFormed(t.value)
    requires !(t.Some? && name in t.value.headers)
    ensures EmailCells(t, name) == {}
  {
  }

  /** The text among the collected cells. */
  function Addresses(cells: set<Cell>): set<string> {
    set c | c in cells && c.Str? :: c.s
  }

  /** `mapping` has one key per collected address, and each key leads to an
      address that has that key. */
  ghost predicate IsEmailMapping(mapping: map<string, string>, addrs: set<string>) {
    KeyedBy(mapping, addrs, EmailKey)
  }

  /** `mapping` files every address of `addrs` under `key`, and nothing else. */
  ghost predicate KeyedBy(mapping: map<string, string>, addrs: set<string>, key: string -> string) {
    && (forall k :: k in mapping <==> exists m :: m in addrs && key(m) == k)
    && (forall k :: k in mapping ==> mapping[k] in addrs && key(mapping[k]) == k)
  }

  /** `build_email_mapping(df_ventas, df_inspecciones, df_auditorias)`. The columns
      are looked up on the reports as read, before their labels are cleaned. Which
      address wins when two share a key depends on the iteration order of a set,
      so the contract promises only some address with that key. An address that is
      not text fails on `mail.split`. */
  method BuildEmailMapping(ventas: Option<Table>, inspecciones: Option<Table>, auditorias: Option<Table>)
    returns (r: Result<map<string, string>, Error>)
    requires ventas.Some? ==> WellFormed(ventas.value)
    requires inspecciones.Some? ==> WellFormed(inspecciones.value)
    requires auditorias.Some? ==> WellFormed(auditorias.value)
    ensures var emails := CollectedEmails(ventas, inspecciones, auditorias);
            && (r.Err? <==> exists c :: c in emails && !c.Str?)
            && (r.Err? ==> r.error == AttributeError)
            && (r.Ok? ==> IsEmailMapping(r.value, Addresses(emails)))
  {
    ghost var fromVentas := EmailCells(ventas, "ds_agent_email");
    ghost var fromInspecciones := EmailCells(inspecciones, "Dirección de correo electrónico");
    ghost var fromAuditorias := EmailCells(auditorias, "Audited Agent");
    var emails: set<Cell> := {};
    if ventas.Some? && "ds_agent_email" in ventas.value.headers {
      emails := emails + EmailCells(ventas, "ds_agent_email");
    } else {
      NoEmails(ventas, "ds_agent_email");
    }
    assert emails == fromVentas;
    if inspecciones.Some? {
      var col := "Dirección de correo electrónico";
      if col in inspecciones.value.headers {
        emails := emails + EmailCells(inspecciones, col);
      } else {
        NoEmails(inspecciones, col);
      }
    } else {
      NoEmails(inspecciones, "Dirección de correo electrónico");
    }
    assert emails == fromVentas + fromInspecciones;
    if auditorias.Some? && "Audited Agent" in auditorias.value.headers {
      emails := emails + EmailCells(auditorias, "Audited Agent");
    } else {
      NoEmails(auditorias, "Audited Agent");
    }
    assert emails == fromVentas + fromInspecciones + fromAuditorias;
    r := FileByKey(emails);
  }

  /** The loop of `build_email_mapping`: each collected address is filed under its
      key, a later one replacing an earlier one with the same key. */
  method FileByKey(emails: set<Cell>) returns (r: Result<map<string, string>, Error>)
    ensures r.Err? <==> exists c :: c in emails && !c.Str?
    ensures r.Err? ==> r.error == AttributeError
    ensures r.Ok? ==> IsEmailMapping(r.value, Addresses(emails))
  {
    var mapping: map<string, string> := map[];
    var remaining := emails;
    ghost var done: set<Cell> := {};
    while remaining != {}
      invariant done + remaining == emails
      invariant forall c :: c in done ==> c.Str?
      invariant IsEmailMapping(mapping, Addresses(done))
      decreases |remaining|
    {
      var mail :| mail in remaining;
      if !mail.Str? {
        return Err(AttributeError);
      }
      AddressesAdd(done, mail);
      MappingAdd(mapping, Addresses(done), mail.s, EmailKey);
      mapping := mapping[EmailKey(mail.s) := mail.s];
      remaining := remaining - {mail};
      done := done + {mail};
    }
    assert done == emails;
    r := Ok(mapping);
  }

  lemma AddressesAdd(cells: set<Cell>, mail: Cell)
    requires mail.Str?
    ensures Addresses(cells + {mail}) == Addresses(cells) + {mail.s}
  {
  }

  /** Filing one more address keeps the mapping complete and sound. */
  lemma MappingAdd(mapping: map<string, string>, addrs: set<string>, mail: string, key: string -> string)
    requires KeyedBy(mapping, addrs, key)
    ensures KeyedBy(mapping[key(mail) := mail], addrs + {mail}, key)
  {
    var m2 := mapping[key(mail) := mail];
    forall k | k in m2
      ensures exists m :: m in addrs + {mail} && key(m) == k
    {
      if k == key(mail) {
        assert mail in addrs + {mail};
      } else {
        var m :| m in addrs && key(m) == k;
        assert m in addrs + {mail};
      }
    }
  }

  /** Every non-missing value of the three address columns. */
  function CollectedEmails(ventas: Option<Table>, inspecciones: Option<Table>, auditorias: Option<Table>): set<Cell>
    requires ventas.Some? ==> WellFormed(ventas.value)
    requires inspecciones.Some? ==> WellFormed(inspecciones.value)
    requires auditorias.Some? ==> WellFormed(auditorias.value)
  {
    EmailCells(ventas, "ds_agent_email")
    + EmailCells(inspecciones, "Dirección de correo electrónico")
    + EmailCells(auditorias, "Audited Agent")
  }

  /** `normalize_agent_name_to_email(name, mapping)`: the address filed under the
      name's key; None for a missing name or an unknown key. */
  function NormalizeAgentName(name: Cell, mapping: map<string, string>, env: Env): (r: Option<string>)
    ensures name.Null? ==> r.None?
    ensures r.Some? ==> r.value in mapping.Values
    ensures !name.Null? && NameKey(CellText(name, env)) !in mapping ==> r.None?
  {
    if name.Null? then None
    else
      var key := NameKey(CellText(name, env));
      if key in mapping then Some(mapping[key]) else None
  }

  /** A resolved name always leads to a collected address whose key is the name's. */
  lemma ResolvedIsCollected(name: Cell, mapping: map<string, string>, addrs: set<string>, env: Env)
    requires IsEmailMapping(mapping, addrs)
    ensures var r := NormalizeAgentName(name, mapping, env);
            r.Some? ==> r.value in addrs && EmailKey(r.value) == NameKey(CellText(name, env))
  {
  }

  /** A name whose key no collected address has resolves to None. */
  lemma UnknownName(name: Cell, mapping: map<string, string>, addrs: set<string>, env: Env)
    requires IsEmailMapping(mapping, addrs)
    requires forall m :: m in addrs ==> EmailKey(m) != NameKey(CellText(name, env))
    ensures NormalizeAgentName(name, mapping, env).None?
  {
  }

  /** The name key of a local part, written in any letter case, is the address key. */
  lemma NameKeyOfLocalPart(mail: string, name: string)
    requires Lower(name) == Lower(LocalPart(mail))
    ensures NameKey(name) == EmailKey(mail)
  {
    LowerReplaceCommute(LocalPart(mail));
  }

  /** Round trip: the local part of a collected address, in any letter case, resolves
      to a collected address with the same key. */
  lemma NameRoundTrip(mail: string, name: string, mapping: map<string, string>, addrs: set<string>, env: Env)
    requires IsEmailMapping(mapping, addrs)
    requires mail in addrs
    requires Lower(name) == Lower(LocalPart(mail))
    ensures var r := NormalizeAgentName(Str(name), mapping, env);
            r.Some? && r.value in addrs && EmailKey(r.value) == EmailKey(mail)
  {
    NameKeyOfLocalPart(mail, name);
    ResolveByKey(name, mail, mapping, addrs, env);
  }

  lemma ResolveByKey(name: string, mail: string, mapping: map<string, string>, addrs: set<string>, env: Env)
    requires IsEmailMapping(mapping, addrs) && mail in addrs
    requires NameKey(name) == EmailKey(mail)
    ensures var r := NormalizeAgentName(Str(name), mapping, env);
            r.Some? && r.value in addrs && EmailKey(r.value) == EmailKey(mail)
  {
    var k := EmailKey(mail);
    KeyedLookup(mapping, addrs, EmailKey, mail);
    assert NameKey(CellText(Str(name), env)) == k;
    assert NormalizeAgentName(Str(name), mapping, env) == Some(mapping[k]);
  }

  lemma KeyedLookup(mapping: map<string, string>, addrs: set<string>, key: string -> string, mail: string)
    requires KeyedBy(mapping, addrs, key) && mail in addrs
    ensures key(mail) in mapping && mapping[key(mail)] in addrs && key(mapping[key(mail)]) == key(mail)
  {
  }
}
