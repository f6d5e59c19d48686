/**
 * The language-client registry: one slot per language, each holding the
 * client created for it, which the client itself marks destroyed when its
 * connection to the language server ends.
 */
module LanguageClients {

  /**
   * A client object; `serial` tells apart the objects created for the same
   * language, as `new LanguageClient(language)` gives a distinct object each time.
   */
  datatype LanguageClient = LanguageClient(language: string, serial: nat, destroyed: bool)

  /** `LanguageState.clients`: language id to the client installed for it. */
  type Registry = map<string, LanguageClient>

  predicate HasLiveClient(clients: Registry, language: string) {
    language in clients && !clients[language].destroyed
  }

  datatype CreateOutcome = CreateOutcome(clients: Registry, created: bool)

  /**
   * `createLanguageClient(language)`: refused, with the registry untouched,
   * when a live client already holds the slot or the language has no
   * language server; otherwise a new live client, numbered `serial`, takes
   * the slot (evicting a destroyed one) and every other slot is kept.
   */
  function CreateClient(clients: Registry, supported: set<string>, language: string, serial: nat): (out: CreateOutcome)
    ensures !out.created <==> HasLiveClient(clients, language) || language !in supported
    ensures !out.created ==> out.clients == clients
    ensures out.created ==>
      && out.clients.Keys == clients.Keys + {language}
      && out.clients[language] == LanguageClient(language, serial, false)
      && (forall l :: l in clients && l != language ==> out.clients[l] == clients[l])
  {
    if HasLiveClient(clients, language) || language !in supported then CreateOutcome(clients, false)
    else CreateOutcome(clients[language := LanguageClient(language, serial, false)], true)
  }

  /** The client of `language` loses its connection and marks itself destroyed. */
  function ConnectionClosed(clients: Registry, language: string): (r: Registry)
    ensures r.Keys == clients.Keys
    ensures language in clients ==> r[language] == clients[language].(destroyed := true)
    ensures forall l :: l in clients && l != language ==> r[l] == clients[l]
  {
    if language in clients then clients[language := clients[language].(destroyed := true)] else clients
  }

  /**
   * What can happen to the registry: a create request (with the serial the
   * new client would get), or a client's connection ending.
   */
  datatype RegistryEvent = Create(language: string, serial: nat) | Closed(language: string)

  function Apply(clients: Registry, supported: set<string>, e: RegistryEvent): Registry {
    match e
    case Create(l, n) => CreateClient(clients, supported, l, n).clients
    case Closed(l) => ConnectionClosed(clients, l)
  }

  function Replay(clients: Registry, supported: set<string>, events: seq<RegistryEvent>): Registry
    decreases |events|
  {
    if events == [] then clients else Replay(Apply(clients, supported, events[0]), supported, events[1..])
  }

  /** Every slot holds a client of its own language, and only supported languages have slots. */
  ghost predicate WellFormed(clients: Registry, supported: set<string>) {
    forall l :: l in clients ==> clients[l].language == l && l in supported
  }

  /** The registry shape is kept by any sequence of events, starting from the empty registry or any well-formed one. */
  lemma {:induction false} ReplayKeepsWellFormed(clients: Registry, supported: set<string>, events: seq<RegistryEvent>)
    requires WellFormed(clients, supported)
    ensures WellFormed(Replay(clients, supported, events), supported)
    decreases |events|
  {
    if events != [] {
      var next := Apply(clients, supported, events[0]);
      assert WellFormed(next, supported);
      ReplayKeepsWellFormed(next, supported, events[1..]);
    }
  }

  /**
   * Single live client per language: once a live client holds a slot, no
   * create request replaces it until that client's connection is closed.
   */
  lemma {:induction false} LiveClientIsNeverReplaced(clients: Registry, supported: set<string>,
                                                     events: seq<RegistryEvent>, language: string)
    requires HasLiveClient(clients, language)
    requires forall i :: 0 <= i < |events| ==> events[i] != Closed(language)
    ensures var r := Replay(clients, supported, events); language in r && r[language] == clients[language]
    decreases |events|
  {
    if events != [] {
      var next := Apply(clients, supported, events[0]);
      assert events[0] != Closed(language);
      assert next[language] == clients[language];
      LiveClientIsNeverReplaced(next, supported, events[1..], language);
    }
  }

  /** A second create for a language whose client is live is always refused. */
  lemma {:induction false} SecondCreateRefused(clients: Registry, supported: set<string>,
                                               events: seq<RegistryEvent>, language: string, first: nat, second: nat)
    requires CreateClient(clients, supported, language, first).created
    requires forall i :: 0 <= i < |events| ==> events[i] != Closed(language)
    ensures var after := Replay(CreateClient(clients, supported, language, first).clients, supported, events);
      && language in after && after[language] == LanguageClient(language, first, false)
      && !CreateClient(after, supported, language, second).created
  {
    LiveClientIsNeverReplaced(CreateClient(clients, supported, language, first).clients, supported, events, language);
  }
}
