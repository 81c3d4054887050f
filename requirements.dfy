/** The presence checks both validators perform, each a "guard and throw":
    a configuration meets a requirement when the property it names is
    truthy. Validators differ only in which checks they make, in what order,
    and with what messages. */
module Requirements {
  import opened JsValues
  import opened EnterpriseConfig

  datatype Requirement =
    | HasEnterprise | HasKnowledgeBase | HasVoiceAgent
    | HasName | HasIndustry | HasContactInfo
  {
    /** The property name the check reads. */
    function Key(): string {
      match this
      case HasEnterprise => "enterprise"
      case HasKnowledgeBase => "knowledgeBase"
      case HasVoiceAgent => "voiceAgent"
      case HasName => "name"
      case HasIndustry => "industry"
      case HasContactInfo => "contactInfo"
    }
  }

  /** `config.enterprise`, `config.knowledgeBase`, `config.voiceAgent` are
      objects, so truthy exactly when present; `enterprise.name` and
      `enterprise.industry` are strings, so the empty string fails too. The
      enterprise checks are only ever made once `enterprise` is known to be
      present. */
  predicate Meets(c: Config, r: Requirement) {
    match r
    case HasEnterprise => c.enterprise.Some?
    case HasKnowledgeBase => c.knowledgeBase.Some?
    case HasVoiceAgent => c.voiceAgent.Some?
    case HasName => c.enterprise.Some? && Truthy(c.enterprise.value.name)
    case HasIndustry => c.enterprise.Some? && Truthy(c.enterprise.value.industry)
    case HasContactInfo => c.enterprise.Some? && c.enterprise.value.contactInfo.Some?
  }

  /** The position of the first requirement of `rs` that `c` does not meet,
      or `|rs|` when it meets them all: every earlier one is met and the one
      found is not. */
  function FirstUnmet(c: Config, rs: seq<Requirement>): (i: nat)
    ensures i <= |rs|
    ensures forall j | 0 <= j < i :: Meets(c, rs[j])
    ensures i < |rs| ==> !Meets(c, rs[i])
  {
    if |rs| == 0 then 0
    else if !Meets(c, rs[0]) then 0
    else 1 + FirstUnmet(c, rs[1..])
  }

  /** The requirement a sequence of guard-and-throw checks reports: the first
      in order that is not met, if any; it is always one of `rs`, and one
      that `c` does not meet. */
  function FirstFailure(c: Config, rs: seq<Requirement>): (r: Option<Requirement>)
    ensures r.Some? ==> r.value in rs && !Meets(c, r.value)
  {
    var i := FirstUnmet(c, rs);
    if i == |rs| then None else Some(rs[i])
  }

  /** A check sequence passes exactly when every requirement is met, and a
      requirement that appears once is the one reported exactly when it is
      unmet and every check before it passed. */
  lemma FirstFailureIsFirst(c: Config, rs: seq<Requirement>, k: nat)
    requires k < |rs|
    requires forall j | 0 <= j < |rs| && j != k :: rs[j] != rs[k]
    ensures FirstFailure(c, rs) == Some(rs[k]) <==> !Meets(c, rs[k]) && forall j | 0 <= j < k :: Meets(c, rs[j])
    ensures FirstFailure(c, rs) == None <==> forall j | 0 <= j < |rs| :: Meets(c, rs[j])
  {
    var i := FirstUnmet(c, rs);
    if FirstFailure(c, rs) == Some(rs[k]) {
      assert rs[i] == rs[k];
    }
    if !Meets(c, rs[k]) && forall j | 0 <= j < k :: Meets(c, rs[j]) {
      assert i == k;
    }
  }
}
