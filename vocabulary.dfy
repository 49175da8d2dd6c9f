// The IRIs the orchestrator writes and looks up. They are the standard
// namespace IRIs of the W3C ACL, FOAF, LDP, RDF, XSD, TREE and LDES
// vocabularies.
module Vocabulary {

  const ACL_NAMESPACE := "http://www.w3.org/ns/auth/acl#"
  const ACL_AUTHORIZATION := "http://www.w3.org/ns/auth/acl#Authorization"
  const ACL_READ := "http://www.w3.org/ns/auth/acl#Read"
  const ACL_WRITE := "http://www.w3.org/ns/auth/acl#Write"
  const ACL_APPEND := "http://www.w3.org/ns/auth/acl#Append"
  const ACL_CONTROL := "http://www.w3.org/ns/auth/acl#Control"
  const ACL_AGENT := "http://www.w3.org/ns/auth/acl#agent"
  const ACL_AGENT_CLASS := "http://www.w3.org/ns/auth/acl#agentClass"
  const ACL_MODE := "http://www.w3.org/ns/auth/acl#mode"
  const ACL_ACCESS_TO := "http://www.w3.org/ns/auth/acl#accessTo"
  const ACL_DEFAULT := "http://www.w3.org/ns/auth/acl#default"

  const FOAF_AGENT := "http://xmlns.com/foaf/0.1/Agent"

  const LDP_INBOX := "http://www.w3.org/ns/ldp#inbox"
  const LDP_CONSTRAINED_BY := "http://www.w3.org/ns/ldp#constrainedBy"
  const LDP_CONTAINS := "http://www.w3.org/ns/ldp#contains"
  const LDP_CONTAINER := "http://www.w3.org/ns/ldp#Container"

  const RDF_TYPE := "http://www.w3.org/1999/02/22-rdf-syntax-ns#type"
  const XSD_DATE_TIME := "http://www.w3.org/2001/XMLSchema#dateTime"

  const TREE_NAMESPACE := "https://w3id.org/tree#"
  const TREE_NODE_CLASS := "https://w3id.org/tree#Node"
  const TREE_RELATION := "https://w3id.org/tree#relation"
  const TREE_NODE := "https://w3id.org/tree#node"
  const TREE_PATH := "https://w3id.org/tree#path"
  const TREE_VALUE := "https://w3id.org/tree#value"
  const TREE_SHAPE := "https://w3id.org/tree#shape"
  const TREE_VIEW := "https://w3id.org/tree#view"
  const TREE_GREATER_THAN_OR_EQUAL := "https://w3id.org/tree#GreaterThanOrEqualToRelation"

  const LDES_EVENT_STREAM := "https://w3id.org/ldes#EventStream"

  /** The WebID written into every ACL by the version-1 orchestrator, whatever the log's owner. */
  const ORCHESTRATOR_WEB_ID := "https://pod.inrupt.com/woutslabbinck/profile/card#me"
}
