/**
 * A menu that asks for the fields of a form one by one, keeping the answers in the session
 * under the form's key. The menu it registers its states with is the external menu package;
 * here its state table is a map from state name to the field that state asks for.
 */
module Forms {
  import opened Wrappers
  import opened Records
  import Sessions

  datatype Field = Field(key: string, title: string)

  /** The answers given so far, by field key. */
  type Form = Record<string>

  /** What a registered state does: show the field's title (its label), and on any input store it. */
  datatype FieldState = FieldState(title: string, key: string, last: bool)

  const NoFirstField := "TypeError: Cannot read properties of undefined (reading 'key')"

  function StateName(formKey: string, key: string): string
  {
    formKey + "." + key
  }

  function FieldStateOf(fields: seq<Field>, i: nat): FieldState
    requires i < |fields|
  {
    FieldState(fields[i].title, fields[i].key, i == |fields| - 1)
  }

  /** The state names of the first `k` fields. */
  function Names(formKey: string, fields: seq<Field>, k: nat): set<string>
    requires k <= |fields|
  {
    if k == 0 then {} else Names(formKey, fields, k - 1) + {StateName(formKey, fields[k - 1].key)}
  }

  /** A name is among those of the first `k` fields exactly when one of them has it. */
  lemma {:induction false} NamesAre(formKey: string, fields: seq<Field>, k: nat, n: string)
    requires k <= |fields|
    ensures n in Names(formKey, fields, k) <==> exists i :: 0 <= i < k && StateName(formKey, fields[i].key) == n
  {
    if k > 0 {
      NamesAre(formKey, fields, k - 1, n);
    }
  }

  /** The state table after registering the first `k` fields in order; a later field replaces an earlier one of the same name. */
  function Registered(states: map<string, FieldState>, formKey: string, fields: seq<Field>, k: nat): map<string, FieldState>
    requires k <= |fields|
    decreases k
  {
    if k == 0 then states
    else Registered(states, formKey, fields, k - 1)[StateName(formKey, fields[k - 1].key) := FieldStateOf(fields, k - 1)]
  }

  /** Registering adds exactly the fields' state names to the table. */
  lemma {:induction false} RegisteredKeys(states: map<string, FieldState>, formKey: string, fields: seq<Field>, k: nat)
    requires k <= |fields|
    ensures Registered(states, formKey, fields, k).Keys == states.Keys + Names(formKey, fields, k)
    decreases k
  {
    if k > 0 {
      RegisteredKeys(states, formKey, fields, k - 1);
    }
  }

  /** States that no field's name hits keep what they held. */
  lemma {:induction false} RegisteredKeepsOthers(states: map<string, FieldState>, formKey: string, fields: seq<Field>, k: nat, n: string)
    requires k <= |fields|
    requires n in states && n !in Names(formKey, fields, k)
    ensures n in Registered(states, formKey, fields, k) && Registered(states, formKey, fields, k)[n] == states[n]
    decreases k
  {
    if k > 0 {
      RegisteredKeepsOthers(states, formKey, fields, k - 1, n);
    }
  }

  lemma StateNameInjective(formKey: string, a: string, b: string)
    ensures StateName(formKey, a) == StateName(formKey, b) ==> a == b
  {
    if StateName(formKey, a) == StateName(formKey, b) {
      assert StateName(formKey, a)[|formKey| + 1..] == a;
      assert StateName(formKey, b)[|formKey| + 1..] == b;
    }
  }

  /**
   * A field whose key no later field reuses keeps exactly its own state: its title, its key,
   * and whether it is the last.
   */
  lemma {:induction false} OneStatePerField(states: map<string, FieldState>, formKey: string, fields: seq<Field>, k: nat, i: nat)
    requires i < k <= |fields|
    requires forall j :: i < j < k ==> fields[j].key != fields[i].key
    ensures StateName(formKey, fields[i].key) in Registered(states, formKey, fields, k)
            && Registered(states, formKey, fields, k)[StateName(formKey, fields[i].key)] == FieldStateOf(fields, i)
    decreases k
  {
    if i < k - 1 {
      OneStatePerField(states, formKey, fields, k - 1, i);
      StateNameInjective(formKey, fields[k - 1].key, fields[i].key);
    }
  }

  /** The form stored under `formKey`; a missing one parses as null and spreads as no answers. */
  function StoredForm(data: map<string, Form>, formKey: string): Form
  {
    if formKey in data then data[formKey] else []
  }

  class FormMenu {
    var states: map<string, FieldState>
    var forms: Sessions.Store<Form>

    constructor(forms: Sessions.Store<Form>)
      ensures states == map[] && this.forms == forms
    {
      states := map[];
      this.forms := forms;
    }

    /**
     * `buildFormMenu`: makes sure the session holds a form, registers one state per field and
     * names the first field's state as the entry point; without fields it throws after the
     * session step.
     */
    method BuildFormMenu(formKey: string, fields: seq<Field>) returns (entry: Result<string>)
      modifies this`states, forms
      ensures forms.data == if formKey in old(forms.data) then old(forms.data) else old(forms.data)[formKey := []]
      ensures forms.ended == old(forms.ended)
      ensures |fields| == 0 ==> entry == Err(NoFirstField) && states == old(states)
      ensures |fields| > 0 ==> entry == Ok(StateName(formKey, fields[0].key)) && states == Registered(old(states), formKey, fields, |fields|)
    {
      var stored := forms.Get(formKey);
      if stored.None? {
        forms.Set(formKey, []);
      }
      if |fields| == 0 {
        return Err(NoFirstField);
      }
      entry := Ok(StateName(formKey, fields[0].key));
      RegisterFields(formKey, fields);
    }

    /** The loop of `buildFormMenu`: one `menu.state` call per field, in order. */
    method RegisterFields(formKey: string, fields: seq<Field>)
      modifies this`states
      ensures states == Registered(old(states), formKey, fields, |fields|)
    {
      var i := 0;
      var table := states;
      while i < |fields|
        invariant 0 <= i <= |fields|
        invariant table == Registered(old(states), formKey, fields, i)
      {
        table := table[StateName(formKey, fields[i].key) := FieldStateOf(fields, i)];
        i := i + 1;
      }
      states := table;
    }

    /**
     * The `*` link of field `i`: stores the input under the field's key, keeping every other
     * answer; the last field hands the form to `onSubmit`, any other returns its own state.
     */
    method Answer(formKey: string, fields: seq<Field>, i: nat, input: string, onSubmit: Form -> string) returns (next: string)
      requires i < |fields|
      modifies forms
      ensures var form := Put(StoredForm(old(forms.data), formKey), fields[i].key, input);
              && forms.data == old(forms.data)[formKey := form]
              && next == if i == |fields| - 1 then onSubmit(form) else StateName(formKey, fields[i].key)
      ensures Get(forms.data[formKey], fields[i].key) == Some(input)
      ensures forall k :: k != fields[i].key ==> Get(forms.data[formKey], k) == Get(StoredForm(old(forms.data), formKey), k)
      ensures forms.ended == old(forms.ended)
    {
      var stored := forms.Get(formKey);
      var form := if stored.Some? then stored.value else [];
      forms.Set(formKey, Put(form, fields[i].key, input));
      if i == |fields| - 1 {
        var submitted := forms.Get(formKey);
        return onSubmit(submitted.value);
      }
      return StateName(formKey, fields[i].key);
    }
  }
}
