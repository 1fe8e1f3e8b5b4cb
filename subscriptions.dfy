/**
 * The routing declaration returned by `ListTopicSubscriptions`: one
 * subscription with an ordered list of rules and a default path. The broker
 * evaluates the match expressions; this side only declares them.
 */
module Subscriptions {
  import opened Wrappers
  import opened Routes

  const PubsubName: string := "messagebus"
  const PubsubTopic: string := "pubsub-routing-grpc"

  datatype TopicRule = TopicRule(matchExpr: string, path: string)
  datatype TopicRoutes = TopicRoutes(rules: seq<TopicRule>, default: string)
  datatype TopicSubscription = TopicSubscription(pubsubName: string, topic: string, routes: TopicRoutes)

  /** The match expression selecting events whose type is `eventType`. */
  function TypeEquals(eventType: string): string
  {
    "event.type == \"" + eventType + "\""
  }

  /** The routes a rule list sends matching events to, in rule order. */
  function RuleRoutes(rules: seq<TopicRule>): seq<Option<Route>>
  {
    seq(|rules|, i requires 0 <= i < |rules| => PathToRoute(rules[i].path))
  }

  /**
   * The declaration does not depend on the ledger (it takes no state). It
   * names bus `messagebus` and topic `pubsub-routing-grpc`; its rules send
   * events to routes C then B, in that order, and everything else to route
   * A; each rule matches the event type equal to its own path, and every path
   * it declares is one the dispatcher accepts.
   */
  function ListTopicSubscriptions(): (subs: seq<TopicSubscription>)
    ensures |subs| == 1
    ensures subs[0].pubsubName == PubsubName && subs[0].topic == PubsubTopic
    ensures RuleRoutes(subs[0].routes.rules) == [Some(C), Some(B)]
    ensures PathToRoute(subs[0].routes.default) == Some(A)
    ensures forall rule :: rule in subs[0].routes.rules ==> rule.matchExpr == TypeEquals(rule.path)
  {
    [TopicSubscription(
       PubsubName,
       PubsubTopic,
       TopicRoutes(
         [ TopicRule("event.type == \"myevent.C\"", PathC),
           TopicRule("event.type == \"myevent.B\"", PathB) ],
         PathA))]
  }
}
