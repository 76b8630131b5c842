/**
  The migration stage that counts persisted settings no longer declared and,
  in production without a refresh or force option, asks the operator before
  letting the pipeline delete them.
 */
module ConfirmSettingsToDelete {
  import opened Values
  import opened Migration
  import LoadMetadata

  /** The host's answers: the `refresh` and `force` options and whether the
      environment is production. */
  datatype Environment = Environment(refresh: bool, production: bool, force: bool)

  /** `shouldPrompt()`. */
  function ShouldPrompt(env: Environment): (r: bool)
  {
    !env.refresh && env.production && !env.force
  }

  /** `deletableMetadata(data)`: the persisted records whose name is not a
      declared name. */
  function DeletableMetadata(metadata: map<string, Metadata>, declared: set<string>): (n: nat)
    ensures n == 0 <==> forall k :: k in metadata ==> metadata[k].name in declared
    ensures n <= |metadata|
  {
    var undeclared := set k | k in metadata && metadata[k].name !in declared;
    SubsetNoLarger(undeclared, metadata.Keys);
    NonEmptyWhenWitnessed(metadata, declared);
    |undeclared|
  }

  lemma {:induction false} SubsetNoLarger(a: set<string>, b: set<string>)
    requires a <= b
    ensures |a| <= |b|
    decreases |b|
  {
    if b != {} {
      var x :| x in b;
      SubsetNoLarger(a - {x}, b - {x});
    }
  }

  lemma NonEmptyWhenWitnessed(metadata: map<string, Metadata>, declared: set<string>)
    ensures (exists k :: k in metadata && metadata[k].name !in declared) ==>
      |set k | k in metadata && metadata[k].name !in declared| > 0
  {
    if exists k :: k in metadata && metadata[k].name !in declared {
      var k :| k in metadata && metadata[k].name !in declared;
      var undeclared := set k | k in metadata && metadata[k].name !in declared;
      assert k in undeclared;
      assert undeclared != {};
    }
  }

  /** Once the metadata is keyed by name, the count is the number of loaded
      names that are not declared. */
  lemma DeletableCountsUndeclaredNames(loaded: seq<Metadata>, declared: set<string>)
    ensures var keyed := LoadMetadata.KeyByName(loaded);
      DeletableMetadata(keyed, declared) == |keyed.Keys - declared|
  {
    var keyed := LoadMetadata.KeyByName(loaded);
    assert (set k | k in keyed && keyed[k].name !in declared) == keyed.Keys - declared;
  }

  // ---- The prompt text ----

  function DigitChar(d: nat): (c: char)
    requires d < 10
    ensures '0' <= c <= '9' && (c as int) - ('0' as int) == d
  {
    ('0' as int + d) as char
  }

  predicate AllDigits(s: string) {
    forall i :: 0 <= i < |s| ==> '0' <= s[i] <= '9'
  }

  /** The decimal form of a count, as string interpolation writes it. */
  function Decimal(n: nat): (s: string)
    ensures |s| > 0 && AllDigits(s)
    ensures n > 0 ==> s[0] != '0'
    decreases n
  {
    if n < 10 then [DigitChar(n)] else Decimal(n / 10) + [DigitChar(n % 10)]
  }

  /** The number a string of digits denotes. */
  function DecimalValue(s: string): (n: nat)
    requires AllDigits(s)
    decreases |s|
  {
    if s == [] then 0
    else 10 * DecimalValue(s[..|s| - 1]) + ((s[|s| - 1] as int) - ('0' as int))
  }

  /** Reading the decimal form back gives the count. */
  lemma {:induction false} DecimalRoundTrip(n: nat)
    ensures DecimalValue(Decimal(n)) == n
    decreases n
  {
    if n >= 10 {
      DecimalRoundTrip(n / 10);
      var s := Decimal(n);
      assert s[..|s| - 1] == Decimal(n / 10);
    }
  }

  const PromptPrefix := "There are "
  const PromptSuffix := " old settings that will be deleted on sync. Proceed?"

  /** The question put to the operator. */
  function PromptMessage(count: nat): (m: string) {
    PromptPrefix + Decimal(count) + PromptSuffix
  }

  /** The question is the fixed prefix, the count in canonical decimal (no
      leading zero) and the fixed suffix, for every count. */
  lemma PromptMessageCarriesCount(count: nat)
    ensures var m := PromptMessage(count);
      && |m| > |PromptPrefix| + |PromptSuffix|
      && m[..|PromptPrefix|] == PromptPrefix
      && m[|m| - |PromptSuffix|..] == PromptSuffix
      && var digits := m[|PromptPrefix|..|m| - |PromptSuffix|];
         && AllDigits(digits)
         && (count > 0 ==> digits[0] != '0')
         && DecimalValue(digits) == count
  {
    var m := PromptMessage(count);
    assert m[|PromptPrefix|..|m| - |PromptSuffix|] == Decimal(count);
    DecimalRoundTrip(count);
  }

  /** The question names the count: different counts give different text. */
  lemma PromptMessageNamesCount(a: nat, b: nat)
    ensures PromptMessage(a) == PromptMessage(b) ==> a == b
  {
    if PromptMessage(a) == PromptMessage(b) {
      var ma, mb := PromptMessage(a), PromptMessage(b);
      assert Decimal(a) == ma[|PromptPrefix|..|ma| - |PromptSuffix|];
      assert Decimal(b) == mb[|PromptPrefix|..|mb| - |PromptSuffix|];
      DecimalRoundTrip(a);
      DecimalRoundTrip(b);
    }
  }

  // ---- The decision ----

  /** The question asked (if any) and whether the operator rejected. */
  datatype Verdict = Verdict(prompt: Option<string>, rejected: bool)

  /** `rejectedDeleteOnProduction(data)`; `confirm` is the operator's answer
      to a question. */
  function RejectedDeleteOnProduction(env: Environment, metadata: map<string, Metadata>,
                                      declared: set<string>, confirm: string -> bool): (v: Verdict)
    ensures v.prompt.Some? <==>
      ShouldPrompt(env) && exists k :: k in metadata && metadata[k].name !in declared
    ensures v.prompt.Some? ==> v.prompt.value == PromptMessage(DeletableMetadata(metadata, declared))
    ensures v.rejected <==> v.prompt.Some? && !confirm(v.prompt.value)
  {
    if ShouldPrompt(env) && DeletableMetadata(metadata, declared) != 0 then
      var question := PromptMessage(DeletableMetadata(metadata, declared));
      Verdict(Some(question), !confirm(question))
    else Verdict(None, false)
  }

  /** The environment and options decide whether anyone is asked: a
      refresh, a force option or a non-production environment skip the
      question and never reject; otherwise the question is asked as soon as
      one persisted setting is no longer declared. */
  lemma OptionsDecideThePrompt(env: Environment, metadata: map<string, Metadata>,
                               declared: set<string>, confirm: string -> bool)
    ensures env.refresh || env.force || !env.production ==>
      RejectedDeleteOnProduction(env, metadata, declared, confirm) == Verdict(None, false)
    ensures !env.refresh && !env.force && env.production && DeletableMetadata(metadata, declared) > 0 ==>
      RejectedDeleteOnProduction(env, metadata, declared, confirm).prompt
        == Some(PromptMessage(DeletableMetadata(metadata, declared)))
  {
  }

  /** The question for three deletable settings, written out. */
  lemma PromptForThree()
    ensures PromptMessage(3) == "There are " + "3" + " old settings that will be deleted on sync. Proceed?"
  {
    assert DigitChar(3) == '3';
    assert Decimal(3) == "3";
  }

  /** In production without options, three undeclared settings and a
      refusing operator: the operator is asked about three settings, and the
      stage rejects. */
  lemma ThreeOldSettingsRejected(metadata: map<string, Metadata>, declared: set<string>,
                                 confirm: string -> bool)
    requires DeletableMetadata(metadata, declared) == 3
    requires !confirm(PromptMessage(3))
    ensures RejectedDeleteOnProduction(Environment(false, true, false), metadata, declared, confirm)
      == Verdict(Some(PromptMessage(3)), true)
  {
  }

  /** `handle(data, next)`: raise on a rejection without continuing,
      otherwise continue once with the same, unmodified context. `asked` is
      the question put to the operator, if any. */
  method Handle(data: Data, env: Environment, confirm: string -> bool, next: Next)
    returns (r: StageResult, asked: Option<string>)
    modifies next
    ensures var v := RejectedDeleteOnProduction(env, data.metadata, data.declarations.Keys, confirm);
      && asked == v.prompt
      && (v.rejected ==> r == Raised(MigrationRejected) && next.received == old(next.received))
      && (!v.rejected ==> r == Returned(next.reply) && next.received == old(next.received) + [data])
  {
    var v := RejectedDeleteOnProduction(env, data.metadata, data.declarations.Keys, confirm);
    asked := v.prompt;
    if v.rejected {
      return Raised(MigrationRejected), asked;
    }
    var value := next.Invoke(data);
    r := Returned(value);
  }
}
