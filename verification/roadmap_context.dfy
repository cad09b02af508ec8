/** The client's roadmap context (src/context/RoadmapContext.jsx): the set of
    completed topics with `toggleTopic` and `clearCompleted`. React's state
    hook is replaced by passing the set in and out. */
module RoadmapContext {

  /** `toggleTopic`: the topic's membership is flipped. */
  function ToggleTopic(done: set<string>, topic: string): (r: set<string>)
    ensures topic in r <==> topic !in done
    ensures forall t | t != topic :: t in r <==> t in done
  {
    if topic in done then done - {topic} else done + {topic}
  }

  /** `clearCompleted`: no topic is completed afterwards. */
  function ClearCompleted(done: set<string>): (r: set<string>)
    ensures forall t :: t !in r
  {
    {}
  }

  /** Toggling the same topic twice changes nothing. */
  lemma ToggleTwice(done: set<string>, topic: string)
    ensures ToggleTopic(ToggleTopic(done, topic), topic) == done
  {
  }

  /** Toggles of different topics commute. */
  lemma TogglesCommute(done: set<string>, a: string, b: string)
    ensures ToggleTopic(ToggleTopic(done, a), b) == ToggleTopic(ToggleTopic(done, b), a)
  {
  }

  /** A toggle adds or removes exactly one topic. */
  lemma ToggleChangesCountByOne(done: set<string>, topic: string)
    ensures |ToggleTopic(done, topic)| == if topic in done then |done| - 1 else |done| + 1
  {
  }
}
