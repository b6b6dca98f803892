/** Agents in the result file: attributes are buffered type by type, and flushed to one dataset per
    step and attribute whenever a buffer is full. */
module AgentFile {
  import opened Common

  datatype Value = Int(i: int) | Text(s: string)

  type Record = map<string, Value>

  /** The attributes of an agent type, in the order in which they are kept. */
  datatype Schema = Schema(ints: seq<string>, strings: seq<string>) {
    function All(): seq<string> { ints + strings }
  }

  // Every type has an id and a position, and no attribute twice.
  ghost predicate GoodSchema(c: Schema) {
    && "x" in c.ints && "y" in c.ints && "id" in c.strings
    && forall i, k :: 0 <= i < k < |c.All()| ==> c.All()[i] != c.All()[k]
  }

  /** What serialising agents of one step leaves alone: the attributes of the types known before, and
      the datasets of all other steps.  Those of new types are empty. */
  ghost predicate KeepsOthers(schemas: map<string, Schema>, datasets: map<(string, nat, string), seq<Value>>,
                              schemas': map<string, Schema>, datasets': map<(string, nat, string), seq<Value>>, step: nat, numSteps: nat) {
    && (forall t :: t in schemas ==> t in schemas' && schemas'[t] == schemas[t])
    && (forall t, s, a :: (t, s, a) in datasets && s != step && t in schemas ==>
          (t, s, a) in datasets' && datasets'[(t, s, a)] == datasets[(t, s, a)])
    && (forall t, s: nat, a :: t in schemas' && t !in schemas && a in schemas'[t].All() && s <= numSteps && s != step ==>
          (t, s, a) in datasets' && datasets'[(t, s, a)] == [])
  }

  // The datasets of a new type, for all steps.
  ghost predicate EmptyFor(datasets: map<(string, nat, string), seq<Value>>, type_: string, c: Schema, n: nat) {
    forall s: nat, a :: s < n && a in c.All() ==> (type_, s, a) in datasets && datasets[(type_, s, a)] == []
  }

  ghost predicate KeepsOtherTypes(datasets: map<(string, nat, string), seq<Value>>,
                                  datasets': map<(string, nat, string), seq<Value>>, type_: string) {
    forall t, s, a :: (t, s, a) in datasets && t != type_ ==> (t, s, a) in datasets' && datasets'[(t, s, a)] == datasets[(t, s, a)]
  }

  lemma RegisteringKeepsOthers(schemas: map<string, Schema>, datasets: map<(string, nat, string), seq<Value>>, type_: string,
                               c: Schema, datasets': map<(string, nat, string), seq<Value>>, step: nat, numSteps: nat)
    requires type_ !in schemas && KeepsOtherTypes(datasets, datasets', type_) && EmptyFor(datasets', type_, c, numSteps + 1)
    ensures KeepsOthers(schemas, datasets, schemas[type_ := c], datasets', step, numSteps)
  {
  }

  // The values of one attribute.
  ghost function Column(log: seq<Record>, attribute: string): (c: seq<Value>)
    requires forall k :: 0 <= k < |log| ==> attribute in log[k]
    ensures |c| == |log| && forall k :: 0 <= k < |log| ==> c[k] == log[k][attribute]
  {
    seq(|log|, k requires 0 <= k < |log| => log[k][attribute])
  }

  class AgentSerializer {
    const numSteps: nat
    // The buffer is flushed when it holds that many agents.
    const threshold: nat
    var schemas: map<string, Schema>
    var index: map<string, nat>
    var buffers: map<(string, string), seq<Value>>
    var datasets: map<(string, nat, string), seq<Value>>
    // What has been serialised in the current step.
    ghost var log: map<string, seq<Record>>

    /** Datasets of the current step, followed by what is still in the buffers, hold the agents in
        the order in which they were serialised; the datasets are as long as the index says. */
    ghost predicate Aligned(step: nat, type_: string, attribute: string)
      requires type_ in schemas
      reads this
    {
      && (type_, attribute) in buffers && (type_, step, attribute) in datasets && type_ in log && type_ in index
      && |datasets[(type_, step, attribute)]| == index[type_]
      && (forall k :: 0 <= k < |log[type_]| ==> attribute in log[type_][k])
      && datasets[(type_, step, attribute)] + buffers[(type_, attribute)] == Column(log[type_], attribute)
    }

    ghost predicate Valid(step: nat)
      reads this
    {
      && step <= numSteps
      && (forall t :: t in schemas ==> GoodSchema(schemas[t]))
      && (forall t, a :: t in schemas && a in schemas[t].All() ==> Aligned(step, t, a))
      && (forall t, a, s :: t in schemas && a in schemas[t].All() && step < s <= numSteps ==>
            (t, s, a) in datasets && datasets[(t, s, a)] == [])
    }

    constructor (numSteps: nat, threshold: nat)
      ensures Valid(0) && schemas == map[] && this.numSteps == numSteps && this.threshold == threshold
    {
      this.numSteps, this.threshold := numSteps, threshold;
      schemas, index, buffers, datasets, log := map[], map[], map[], map[], map[];
    }

    // The buffer of one attribute goes to its dataset, behind what is there.
    method WriteColumn(type_: string, step: nat, attribute: string, offset: nat)
      requires (type_, attribute) in buffers && (type_, step, attribute) in datasets && offset <= |datasets[(type_, step, attribute)]|
      modifies this`buffers, this`datasets
      ensures datasets == old(datasets)[(type_, step, attribute) := old(datasets)[(type_, step, attribute)][..offset] + old(buffers)[(type_, attribute)]]
      ensures buffers == old(buffers)[(type_, attribute) := []]
    {
      var key := (type_, step, attribute);
      datasets := datasets[key := datasets[key][..offset] + buffers[(type_, attribute)]];
      buffers := buffers[(type_, attribute) := []];
    }

    // The buffers of some attributes go to their datasets.
    method WriteColumns(type_: string, step: nat, attributes: seq<string>, offset: nat)
      requires NoDuplicates(attributes) && forall a :: a in attributes ==>
                 (type_, a) in buffers && (type_, step, a) in datasets && offset == |datasets[(type_, step, a)]|
      modifies this`buffers, this`datasets
      ensures datasets == WrittenTo(old(datasets), old(buffers), type_, step, attributes, |attributes|)
      ensures buffers == Emptied(old(buffers), type_, attributes, |attributes|)
    {
      for i := 0 to |attributes|
        invariant datasets == WrittenTo(old(datasets), old(buffers), type_, step, attributes, i)
        invariant buffers == Emptied(old(buffers), type_, attributes, i)
      {
        NotYetWritten(old(datasets), old(buffers), type_, step, attributes, i);
        assert attributes[i] in attributes;
        assert datasets[(type_, step, attributes[i])][..offset] == datasets[(type_, step, attributes[i])];
        WriteColumn(type_, step, attributes[i], offset);
      }
    }

    /** Flushes the buffers of a type, unless they are empty. */
    method ExecuteAgentSerialization(type_: string, step: nat)
      requires Valid(step) && type_ in schemas
      modifies this`buffers, this`datasets, this`index
      ensures Valid(step) && forall a :: a in schemas[type_].All() ==> buffers[(type_, a)] == []
      ensures forall t, s, a :: (t, s, a) in old(datasets) && s != step ==> (t, s, a) in datasets && datasets[(t, s, a)] == old(datasets)[(t, s, a)]
      ensures forall t, a :: t in schemas && t != type_ && a in schemas[t].All() ==> (t, a) in buffers && buffers[(t, a)] == old(buffers)[(t, a)]
    {
      TypeIsEven(this, step, type_);
      var c, current := schemas[type_], index[type_];
      var size := |buffers[(type_, "id")]|;
      if size == 0 { return; }
      AllWritten(datasets, buffers, type_, step, c.All(), |c.All()|);
      assert c.All()[..|c.All()|] == c.All();
      WriteColumns(type_, step, c.All(), current);
      index := index[type_ := current + size];
      forall t, a | t in schemas && a in schemas[t].All() ensures Aligned(step, t, a) {
        assert old(Aligned(step, t, a));
        if t == type_ {
          assert datasets[(t, step, a)] + buffers[(t, a)] == datasets[(t, step, a)];
        }
      }
    }

    // An empty dataset for every step and attribute of a type.
    method CreateDatasets(type_: string, c: Schema)
      modifies this`datasets
      ensures KeepsOtherTypes(old(datasets), datasets, type_) && EmptyFor(datasets, type_, c, numSteps + 1)
    {
      for s := 0 to numSteps + 1
        invariant KeepsOtherTypes(old(datasets), datasets, type_) && EmptyFor(datasets, type_, c, s)
      {
        datasets := datasets + map a | a in c.All() :: (type_, s, a) := [];
      }
    }

    // An empty buffer for every attribute of a type.
    method CreateBuffers(type_: string, c: Schema)
      modifies this`buffers
      ensures forall a :: a in c.All() ==> (type_, a) in buffers && buffers[(type_, a)] == []
      ensures forall key :: key in old(buffers) && key.0 != type_ ==> key in buffers && buffers[key] == old(buffers)[key]
    {
      AllEmptied(buffers, type_, c.All(), |c.All()|);
      assert c.All()[..|c.All()|] == c.All();
      buffers := Emptied(buffers, type_, c.All(), |c.All()|);
    }

    /** A new type: empty buffers, and an empty dataset for every step and attribute. */
    method RegisterType(type_: string, c: Schema, step: nat)
      requires Valid(step) && type_ !in schemas && GoodSchema(c)
      modifies this
      ensures Valid(step) && schemas == old(schemas)[type_ := c] && log == old(log)[type_ := []]
      ensures KeepsOthers(old(schemas), old(datasets), schemas, datasets, step, numSteps)
    {
      CreateDatasets(type_, c);
      RegisteringKeepsOthers(schemas, old(datasets), type_, c, datasets, step, numSteps);
      CreateBuffers(type_, c);
      index, schemas, log := index[type_ := 0], schemas[type_ := c], log[type_ := []];
      forall t, a | t in schemas && a in schemas[t].All() ensures Aligned(step, t, a) {
        if t != type_ { assert old(Aligned(step, t, a)); }
      }
    }

    method AddAttributes(type_: string, attributes: seq<string>, record: Record)
      requires forall a :: a in attributes ==> (type_, a) in buffers && a in record
      requires NoDuplicates(attributes)
      modifies this`buffers
      ensures buffers == Appended(old(buffers), type_, attributes, record, |attributes|)
    {
      for i := 0 to |attributes|
        invariant buffers == Appended(old(buffers), type_, attributes, record, i)
      {
        AllAppended(old(buffers), type_, attributes, record, i);
        assert attributes[i] !in attributes[..i] && attributes[i] in attributes;
        buffers := buffers[(type_, attributes[i]) := buffers[(type_, attributes[i])] + [record[attributes[i]]]];
      }
    }

    // The same, buffer by buffer.
    method AddRecord(type_: string, attributes: seq<string>, record: Record)
      requires NoDuplicates(attributes) && forall a :: a in attributes ==> (type_, a) in buffers && a in record
      modifies this`buffers
      ensures buffers.Keys == old(buffers).Keys
      ensures forall a :: a in attributes ==> buffers[(type_, a)] == old(buffers)[(type_, a)] + [record[a]]
      ensures forall key :: key in old(buffers) && !(key.0 == type_ && key.1 in attributes) ==> buffers[key] == old(buffers)[key]
    {
      AllAppended(buffers, type_, attributes, record, |attributes|);
      assert attributes[..|attributes|] == attributes;
      AddAttributes(type_, attributes, record);
    }

    // One agent more in the buffers of a type.
    method BufferAgent(type_: string, record: Record, step: nat)
      requires Valid(step) && type_ in schemas && forall a :: a in schemas[type_].All() ==> a in record
      modifies this`buffers, this`log
      ensures type_ in old(log) && log == old(log)[type_ := old(log)[type_] + [record]] && Valid(step)
    {
      TypeIsEven(this, step, type_);
      AddRecord(type_, schemas[type_].All(), record);
      log := log[type_ := log[type_] + [record]];
      forall t, a | t in schemas && a in schemas[t].All() ensures Aligned(step, t, a) {
        assert old(Aligned(step, t, a));
        if t == type_ { ColumnGrows(old(log)[t], record, a); }
      }
    }

    /** Serialises one agent; the buffers of its type are flushed when they are full. */
    method SerializeAgent(type_: string, c: Schema, record: Record, step: nat)
      requires Valid(step) && GoodSchema(c) && (type_ in schemas ==> schemas[type_] == c) && forall a :: a in c.All() ==> a in record
      modifies this
      ensures Valid(step) && schemas == old(schemas)[type_ := c]
      ensures log == old(log)[type_ := (if type_ in old(schemas) && type_ in old(log) then old(log)[type_] else []) + [record]]
      ensures KeepsOthers(old(schemas), old(datasets), schemas, datasets, step, numSteps)
      ensures threshold > 0 ==> forall a :: a in c.All() ==> (type_, a) in buffers && |buffers[(type_, a)]| < threshold
    {
      if type_ !in schemas { RegisterType(type_, c, step); }
      ghost var registered := datasets;
      TypeIsEven(this, step, type_);
      BufferAgent(type_, record, step);
      TypeIsEven(this, step, type_);
      if |buffers[(type_, "id")]| >= threshold { ExecuteAgentSerialization(type_, step); }
      KeepsOthersTwice(old(schemas), old(datasets), schemas, registered, schemas, datasets, step, numSteps);
    }

    /** The datasets of a step hold the agents of every type in the order in which they were
        serialised, with the values of one agent at the same place for all attributes. */
    ghost predicate Complete(step: nat, done: map<string, seq<Record>>)
      reads this
    {
      forall t, a :: t in schemas && a in schemas[t].All() ==> Stored(step, t, a, done)
    }

    ghost predicate Stored(step: nat, t: string, a: string, done: map<string, seq<Record>>)
      reads this
    {
      && t in done && (forall k :: 0 <= k < |done[t]| ==> a in done[t][k])
      && (t, step, a) in datasets && datasets[(t, step, a)] == Column(done[t], a)
    }

    // All buffers are flushed.
    method FlushAll(step: nat)
      requires Valid(step)
      modifies this`buffers, this`datasets, this`index
      ensures Valid(step) && Complete(step, log)
      ensures forall t, a :: t in schemas && a in schemas[t].All() ==> (t, a) in buffers && buffers[(t, a)] == []
      ensures forall t, s, a :: (t, s, a) in old(datasets) && s != step ==> (t, s, a) in datasets && datasets[(t, s, a)] == old(datasets)[(t, s, a)]
    {
      var todo := schemas.Keys;
      while todo != {}
        invariant Valid(step) && todo <= schemas.Keys
        invariant forall t, a :: t in schemas && t !in todo && a in schemas[t].All() ==> (t, a) in buffers && buffers[(t, a)] == []
        invariant forall t, s, a :: (t, s, a) in old(datasets) && s != step ==> (t, s, a) in datasets && datasets[(t, s, a)] == old(datasets)[(t, s, a)]
        decreases |todo|
      {
        var t :| t in todo;
        ExecuteAgentSerialization(t, step);
        todo := todo - {t};
      }
      forall t, a | t in schemas && a in schemas[t].All() ensures Stored(step, t, a, log) {
        assert Aligned(step, t, a);
        assert datasets[(t, step, a)] + [] == datasets[(t, step, a)];
      }
    }

    /** Ends a step: what is left in the buffers is flushed, and the next step starts with none. */
    method FinishAgentsSerialization(step: nat)
      requires Valid(step)
      modifies this
      ensures schemas == old(schemas) && Complete(step, old(log))
      ensures step < numSteps ==> Valid(step + 1) && forall t :: t in schemas ==> t in log && log[t] == []
      ensures forall t, s, a :: (t, s, a) in old(datasets) && s != step ==> (t, s, a) in datasets && datasets[(t, s, a)] == old(datasets)[(t, s, a)]
    {
      FlushAll(step);
      forall t | t in schemas ensures t in log && t in index { TypeIsEven(this, step, t); }
      index := map t | t in index :: 0;
      log := map t | t in log :: [];
      if step < numSteps {
        forall t, a | t in schemas && a in schemas[t].All() ensures Aligned(step + 1, t, a) {
          assert Stored(step, t, a, old(log));
        }
      }
    }

    // The agents serialised so far in a step.
    ghost predicate Logged(list: seq<Entry>)
      reads this
    {
      LoggedIn(schemas, log, list)
    }

    /** Serialises the agents of a step one after the other: every dataset of the step holds the
        values of the agents of its type, in the order of the list, and those of other steps stay. */
    method SerializeAgents(list: seq<Entry>, step: nat)
      requires Valid(step) && Logged([]) && GoodList(list) && Matches(schemas, list)
      modifies this
      ensures step < numSteps ==> Valid(step + 1) && Logged([])
      ensures forall i :: 0 <= i < |list| ==> list[i].type_ in schemas
      ensures Matches(schemas, list) && forall t :: t in schemas ==> t in old(schemas) || HasType(list, t)
      ensures KeepsOthers(old(schemas), old(datasets), schemas, datasets, step, numSteps)
      ensures forall t, a :: t in schemas && a in schemas[t].All() ==> Holds(datasets, list, step, t, a)
    {
      for i := 0 to |list|
        invariant Valid(step) && Logged(list[..i]) && Matches(schemas, list)
        invariant forall t :: t in schemas ==> t in old(schemas) || HasType(list, t)
        invariant KeepsOthers(old(schemas), old(datasets), schemas, datasets, step, numSteps)
      {
        ghost var schemas0, datasets0 := schemas, datasets;
        SerializeEntry(list, i, step);
        KeepsOthersTwice(old(schemas), old(datasets), schemas0, datasets0, schemas, datasets, step, numSteps);
      }
      assert list[..|list|] == list;
      ghost var done := log;
      FinishAgentsSerialization(step);
      forall t, a | t in schemas && a in schemas[t].All() ensures Holds(datasets, list, step, t, a) {
        assert Stored(step, t, a, done);
      }
    }

    method SerializeEntry(list: seq<Entry>, i: nat, step: nat)
      requires Valid(step) && i < |list| && Logged(list[..i]) && GoodList(list) && Matches(schemas, list)
      modifies this
      ensures Valid(step) && Logged(list[..i + 1]) && Matches(schemas, list)
      ensures forall t :: t in schemas ==> t in old(schemas) || HasType(list, t)
      ensures KeepsOthers(old(schemas), old(datasets), schemas, datasets, step, numSteps)
    {
      var e := list[i];
      assert GoodEntry(e) && HasType(list, e.type_);
      EntryLogged(schemas, log, list[..i], e);
      EntryMatches(schemas, list, i);
      assert list[..i + 1] == list[..i] + [e];
      SerializeAgent(e.type_, e.schema, e.record, step);
    }

    /** Serialises a whole run, the agents before every step and those after the last one: in the
        file, every dataset of every step holds the values of the agents of its type in that step. */
    method SerializeRun(lists: seq<seq<Entry>>)
      requires Valid(0) && schemas == map[] && |lists| == numSteps + 1
      requires GoodRun(lists)
      modifies this
      ensures forall s, i :: 0 <= s < |lists| && 0 <= i < |lists[s]| ==> lists[s][i].type_ in schemas
      ensures forall s, t, a :: 0 <= s < |lists| && t in schemas && a in schemas[t].All() ==> Holds(datasets, lists[s], s, t, a)
    {
      for step := 0 to |lists|
        invariant step < |lists| ==> Valid(step) && Logged([])
        invariant MatchAll(schemas, lists)
        invariant AllHold(schemas, datasets, lists, step)
      {
        ghost var schemas0, datasets0 := schemas, datasets;
        assert Matches(schemas, lists[step]);
        SerializeAgents(lists[step], step);
        MatchAllAfter(schemas0, schemas, lists, step);
        AllHoldAfter(schemas0, datasets0, schemas, datasets, lists, step, numSteps);
      }
    }
  }

  /** An agent that is serialised, with the attributes that its type registers. */
  datatype Entry = Entry(type_: string, schema: Schema, record: Record)

  ghost predicate GoodEntry(e: Entry) { GoodSchema(e.schema) && forall a :: a in e.schema.All() ==> a in e.record }

  // Agents of one type have the same attributes.
  ghost predicate GoodList(list: seq<Entry>) {
    && (forall i :: 0 <= i < |list| ==> GoodEntry(list[i]))
    && (forall i, k :: 0 <= i < k < |list| && list[i].type_ == list[k].type_ ==> list[i].schema == list[k].schema)
  }

  ghost predicate HasType(list: seq<Entry>, t: string) { exists i :: 0 <= i < |list| && list[i].type_ == t }

  /** The dataset of an attribute holds the values of the agents of its type, in order. */
  ghost predicate Holds(datasets: map<(string, nat, string), seq<Value>>, list: seq<Entry>, step: nat, t: string, a: string) {
    && (t, step, a) in datasets && (forall k :: 0 <= k < |RecordsOf(list, t)| ==> a in RecordsOf(list, t)[k])
    && datasets[(t, step, a)] == Column(RecordsOf(list, t), a)
  }

  ghost predicate LoggedIn(schemas: map<string, Schema>, log: map<string, seq<Record>>, list: seq<Entry>) {
    && (forall t :: t in schemas ==> t in log && log[t] == RecordsOf(list, t))
    && (forall i :: 0 <= i < |list| ==> list[i].type_ in schemas)
  }

  // The agents of a list that are of a known type have the attributes of that type.
  ghost predicate Matches(schemas: map<string, Schema>, list: seq<Entry>) {
    forall k :: 0 <= k < |list| && list[k].type_ in schemas ==> schemas[list[k].type_] == list[k].schema
  }

  // The datasets of the first n steps hold what was serialised in them.
  ghost predicate AllHold(schemas: map<string, Schema>, datasets: map<(string, nat, string), seq<Value>>, lists: seq<seq<Entry>>, n: nat)
    requires n <= |lists|
  {
    && (forall s, i :: 0 <= s < n && 0 <= i < |lists[s]| ==> lists[s][i].type_ in schemas)
    && (forall s, t, a :: 0 <= s < n && t in schemas && a in schemas[t].All() ==> Holds(datasets, lists[s], s, t, a))
  }

  // Agents of one type have the same attributes, in all steps.
  ghost predicate GoodRun(lists: seq<seq<Entry>>) {
    && (forall s, i :: 0 <= s < |lists| && 0 <= i < |lists[s]| ==> GoodEntry(lists[s][i]))
    && (forall s, i, u, k ::
          0 <= s < |lists| && 0 <= i < |lists[s]| && 0 <= u < |lists| && 0 <= k < |lists[u]| ==>
            lists[s][i].type_ == lists[u][k].type_ ==> lists[s][i].schema == lists[u][k].schema)
  }

  ghost predicate MatchAll(schemas: map<string, Schema>, lists: seq<seq<Entry>>) {
    forall s :: 0 <= s < |lists| ==> Matches(schemas, lists[s])
  }

  lemma MatchAllAfter(schemas: map<string, Schema>, schemas': map<string, Schema>, lists: seq<seq<Entry>>, step: nat)
    requires step < |lists| && GoodRun(lists) && MatchAll(schemas, lists) && Matches(schemas', lists[step])
    requires forall t :: t in schemas ==> t in schemas' && schemas'[t] == schemas[t]
    requires forall t :: t in schemas' ==> t in schemas || HasType(lists[step], t)
    ensures MatchAll(schemas', lists)
  {
    forall s | 0 <= s < |lists| ensures Matches(schemas', lists[s]) {
      forall i | 0 <= i < |lists[s]| && lists[s][i].type_ in schemas' ensures schemas'[lists[s][i].type_] == lists[s][i].schema {
        var t := lists[s][i].type_;
        if t in schemas {
          assert Matches(schemas, lists[s]);
        } else {
          var k :| 0 <= k < |lists[step]| && lists[step][k].type_ == t;
        }
      }
    }
  }

  lemma KeepsOthersTwice(schemas: map<string, Schema>, datasets: map<(string, nat, string), seq<Value>>,
                         schemas': map<string, Schema>, datasets': map<(string, nat, string), seq<Value>>,
                         schemas'': map<string, Schema>, datasets'': map<(string, nat, string), seq<Value>>, step: nat, numSteps: nat)
    requires KeepsOthers(schemas, datasets, schemas', datasets', step, numSteps)
    requires KeepsOthers(schemas', datasets', schemas'', datasets'', step, numSteps)
    ensures KeepsOthers(schemas, datasets, schemas'', datasets'', step, numSteps)
  {
  }

  // The agents of one type, in order.
  function RecordsOf(list: seq<Entry>, t: string): seq<Record> {
    if list == [] then []
    else
      var e := list[|list| - 1];
      RecordsOf(list[..|list| - 1], t) + if e.type_ == t then [e.record] else []
  }

  lemma {:induction false} NoRecords(list: seq<Entry>, t: string)
    requires forall i :: 0 <= i < |list| ==> list[i].type_ != t
    ensures RecordsOf(list, t) == []
  {
    if list != [] {
      assert forall i :: 0 <= i < |list| - 1 ==> list[..|list| - 1][i] == list[i];
      NoRecords(list[..|list| - 1], t);
    }
  }

  // Serialising another step does not disturb the steps before.
  lemma AllHoldAfter(schemas: map<string, Schema>, datasets: map<(string, nat, string), seq<Value>>,
                     schemas': map<string, Schema>, datasets': map<(string, nat, string), seq<Value>>,
                     lists: seq<seq<Entry>>, step: nat, numSteps: nat)
    requires step < |lists| == numSteps + 1 && AllHold(schemas, datasets, lists, step)
    requires KeepsOthers(schemas, datasets, schemas', datasets', step, numSteps)
    requires forall i :: 0 <= i < |lists[step]| ==> lists[step][i].type_ in schemas'
    requires forall t, a :: t in schemas' && a in schemas'[t].All() ==> Holds(datasets', lists[step], step, t, a)
    ensures AllHold(schemas', datasets', lists, step + 1)
  {
    forall s, t, a | 0 <= s < step + 1 && t in schemas' && a in schemas'[t].All() ensures Holds(datasets', lists[s], s, t, a) {
      if s < step {
        if t in schemas {
          assert Holds(datasets, lists[s], s, t, a);
        } else {
          NoRecords(lists[s], t);
        }
      }
    }
  }

  // One agent more; a type that was not there has no agents yet.
  lemma NewTypeLogged(list: seq<Entry>, e: Entry, types: set<string>)
    requires forall i :: 0 <= i < |list| ==> list[i].type_ in types
    ensures e.type_ !in types ==> RecordsOf(list, e.type_) == []
    ensures forall t :: RecordsOf(list + [e], t) == RecordsOf(list, t) + if e.type_ == t then [e.record] else []
  {
    if e.type_ !in types { NoRecords(list, e.type_); }
    assert (list + [e])[..|list|] == list;
  }

  lemma EntryLogged(schemas: map<string, Schema>, log: map<string, seq<Record>>, list: seq<Entry>, e: Entry)
    requires LoggedIn(schemas, log, list)
    ensures LoggedIn(schemas[e.type_ := e.schema],
                     log[e.type_ := (if e.type_ in schemas && e.type_ in log then log[e.type_] else []) + [e.record]], list + [e])
  {
    NewTypeLogged(list, e, schemas.Keys);
  }

  lemma EntryMatches(schemas: map<string, Schema>, list: seq<Entry>, i: nat)
    requires i < |list| && GoodList(list) && Matches(schemas, list)
    ensures Matches(schemas[list[i].type_ := list[i].schema], list)
  {
  }

  // A column of a longer log.
  lemma ColumnGrows(log: seq<Record>, record: Record, a: string)
    requires a in record && forall k :: 0 <= k < |log| ==> a in log[k]
    ensures Column(log + [record], a) == Column(log, a) + [record[a]]
  {
  }

  // The columns of some attributes with the values of one more agent.
  function Appended(buffers: map<(string, string), seq<Value>>, type_: string, attributes: seq<string>, record: Record, n: nat)
    : map<(string, string), seq<Value>>
    requires n <= |attributes| && forall a :: a in attributes ==> (type_, a) in buffers && a in record
  {
    if n == 0 then buffers
    else
      var a := attributes[n - 1];
      Appended(buffers, type_, attributes, record, n - 1)[(type_, a) := buffers[(type_, a)] + [record[a]]]
  }

  lemma {:induction false} AllAppended(buffers: map<(string, string), seq<Value>>, type_: string, attributes: seq<string>, record: Record, n: nat)
    requires n <= |attributes| && NoDuplicates(attributes)
    requires forall a :: a in attributes ==> (type_, a) in buffers && a in record
    ensures var bs := Appended(buffers, type_, attributes, record, n);
      && bs.Keys == buffers.Keys
      && (forall a :: a in attributes[..n] ==> bs[(type_, a)] == buffers[(type_, a)] + [record[a]])
      && (forall key :: key in buffers && !(key.0 == type_ && key.1 in attributes[..n]) ==> bs[key] == buffers[key])
  {
    if n > 0 {
      AllAppended(buffers, type_, attributes, record, n - 1);
      assert attributes[..n] == attributes[..n - 1] + [attributes[n - 1]];
    }
  }

  // The datasets after the columns of the first n attributes have been written, and the buffers.
  function WrittenTo(datasets: map<(string, nat, string), seq<Value>>, buffers: map<(string, string), seq<Value>>,
                     type_: string, step: nat, attributes: seq<string>, n: nat): map<(string, nat, string), seq<Value>>
    requires n <= |attributes| && forall a :: a in attributes ==> (type_, a) in buffers && (type_, step, a) in datasets
  {
    if n == 0 then datasets
    else
      var a := attributes[n - 1];
      WrittenTo(datasets, buffers, type_, step, attributes, n - 1)[(type_, step, a) := datasets[(type_, step, a)] + buffers[(type_, a)]]
  }

  function Emptied(buffers: map<(string, string), seq<Value>>, type_: string, attributes: seq<string>, n: nat): map<(string, string), seq<Value>>
    requires n <= |attributes|
  {
    if n == 0 then buffers else Emptied(buffers, type_, attributes, n - 1)[(type_, attributes[n - 1]) := []]
  }

  lemma {:induction false} AllEmptied(buffers: map<(string, string), seq<Value>>, type_: string, attributes: seq<string>, n: nat)
    requires n <= |attributes|
    ensures var bs := Emptied(buffers, type_, attributes, n);
      && (forall a :: a in attributes[..n] ==> (type_, a) in bs && bs[(type_, a)] == [])
      && (forall key :: key in buffers && key.0 != type_ ==> key in bs && bs[key] == buffers[key])
  {
    if n > 0 {
      AllEmptied(buffers, type_, attributes, n - 1);
      assert attributes[..n] == attributes[..n - 1] + [attributes[n - 1]];
    }
  }

  lemma {:induction false} AllWritten(datasets: map<(string, nat, string), seq<Value>>, buffers: map<(string, string), seq<Value>>,
                                      type_: string, step: nat, attributes: seq<string>, n: nat)
    requires n <= |attributes| && NoDuplicates(attributes)
    requires forall a :: a in attributes ==> (type_, a) in buffers && (type_, step, a) in datasets
    ensures var ds, bs := WrittenTo(datasets, buffers, type_, step, attributes, n), Emptied(buffers, type_, attributes, n);
      && ds.Keys == datasets.Keys && bs.Keys == buffers.Keys
      && (forall a :: a in attributes[..n] ==> ds[(type_, step, a)] == datasets[(type_, step, a)] + buffers[(type_, a)] && bs[(type_, a)] == [])
      && (forall key :: key in datasets && !(key.0 == type_ && key.1 == step && key.2 in attributes[..n]) ==> ds[key] == datasets[key])
      && (forall key :: key in buffers && !(key.0 == type_ && key.1 in attributes[..n]) ==> bs[key] == buffers[key])
  {
    if n > 0 {
      AllWritten(datasets, buffers, type_, step, attributes, n - 1);
      assert attributes[..n] == attributes[..n - 1] + [attributes[n - 1]];
    }
  }

  // Attribute n has not been written before it is.
  lemma NotYetWritten(datasets: map<(string, nat, string), seq<Value>>, buffers: map<(string, string), seq<Value>>,
                      type_: string, step: nat, attributes: seq<string>, n: nat)
    requires n < |attributes| && NoDuplicates(attributes)
    requires forall a :: a in attributes ==> (type_, a) in buffers && (type_, step, a) in datasets
    ensures var a := attributes[n];
      && (type_, step, a) in WrittenTo(datasets, buffers, type_, step, attributes, n)
      && WrittenTo(datasets, buffers, type_, step, attributes, n)[(type_, step, a)] == datasets[(type_, step, a)]
      && (type_, a) in Emptied(buffers, type_, attributes, n) && Emptied(buffers, type_, attributes, n)[(type_, a)] == buffers[(type_, a)]
  {
    AllWritten(datasets, buffers, type_, step, attributes, n);
    assert attributes[n] !in attributes[..n];
  }

  /** All buffers of a type are equally long, and its datasets are. */
  lemma TypeIsEven(o: AgentSerializer, step: nat, t: string)
    requires o.Valid(step) && t in o.schemas
    ensures NoDuplicates(o.schemas[t].All()) && "id" in o.schemas[t].All() && t in o.index && t in o.log
    ensures forall a :: a in o.schemas[t].All() ==>
              && (t, a) in o.buffers && (t, step, a) in o.datasets && |o.datasets[(t, step, a)]| == o.index[t]
              && |o.buffers[(t, a)]| == |o.log[t]| - o.index[t]
  {
    assert GoodSchema(o.schemas[t]);
    var all := o.schemas[t].All();
    assert "id" in o.schemas[t].strings;
    forall a | a in all
      ensures (t, a) in o.buffers && (t, step, a) in o.datasets && |o.datasets[(t, step, a)]| == o.index[t]
      ensures |o.buffers[(t, a)]| == |o.log[t]| - o.index[t]
    {
      assert o.Aligned(step, t, a);
      assert |o.datasets[(t, step, a)] + o.buffers[(t, a)]| == |o.log[t]|;
    }
    assert o.Aligned(step, t, "id");
  }
}
