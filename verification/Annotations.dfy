/** The annotation keys of the sidecar model. */
module Annotations {
  type Annots = map<string, string>

  const PREFIX := "ibm-application-gateway.security.ibm.com/"
  const IMAGE := PREFIX + "deployment.image"
  const PORT := PREFIX + "service.port"
  const CONF := PREFIX + "configuration."
  const ENV := PREFIX + "env."
  /** Written by the operator: the names of the service and config map it generated. */
  const SERVICE := PREFIX + "serviceName"
  const CONFIGMAP := PREFIX + "configMapName"

  predicate HasPrefix(s: string, prefix: string) {
    prefix <= s
  }

  lemma Apart(a: string, b: string, i: nat)
    requires i < |a|
    ensures HasPrefix(PREFIX + b, PREFIX + a) ==> i < |b| && b[i] == a[i]
  {
    assert (PREFIX + a)[|PREFIX| + i] == a[i];
    assert i < |b| ==> (PREFIX + b)[|PREFIX| + i] == b[i];
  }

  /** The two keys the operator writes are of none of the kinds that call for an update. */
  lemma OperatorKeys()
    ensures HasPrefix(SERVICE, PREFIX) && HasPrefix(CONFIGMAP, PREFIX) && SERVICE != CONFIGMAP
    ensures !HasPrefix(SERVICE, CONF) && !HasPrefix(SERVICE, PORT) && !HasPrefix(SERVICE, IMAGE)
            && !HasPrefix(SERVICE, ENV)
    ensures !HasPrefix(CONFIGMAP, CONF) && !HasPrefix(CONFIGMAP, PORT) && !HasPrefix(CONFIGMAP, IMAGE)
            && !HasPrefix(CONFIGMAP, ENV)
  {
    Apart("configuration.", "serviceName", 0);
    Apart("service.port", "serviceName", 7);
    Apart("deployment.image", "serviceName", 0);
    Apart("env.", "serviceName", 0);
    Apart("configuration.", "configMapName", 6);
    Apart("service.port", "configMapName", 0);
    Apart("deployment.image", "configMapName", 0);
    Apart("env.", "configMapName", 0);
  }

  lemma ImageKey()
    ensures HasPrefix(IMAGE, PREFIX) && !HasPrefix(IMAGE, CONF) && !HasPrefix(IMAGE, PORT) && !HasPrefix(IMAGE, ENV)
    ensures IMAGE != SERVICE && IMAGE != CONFIGMAP
  {
    Apart("configuration.", "deployment.image", 0);
    Apart("service.port", "deployment.image", 0);
    Apart("env.", "deployment.image", 0);
    OperatorKeys();
  }

  lemma PortKey()
    ensures HasPrefix(PORT, PREFIX) && !HasPrefix(PORT, CONF) && !HasPrefix(PORT, ENV)
    ensures PORT != SERVICE && PORT != CONFIGMAP && PORT != IMAGE
  {
    Apart("configuration.", "service.port", 0);
    Apart("env.", "service.port", 0);
    OperatorKeys();
  }
}
