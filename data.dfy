/** The seed data of `data.ts`: the tasks the dashboard starts with when nothing is saved
    (`INITIAL_TASKS`) and the knowledge the vector store is seeded with on first start
    (`INITIAL_KNOWLEDGE`). Each knowledge document's text is abbreviated to its heading line;
    a deadline is kept as its date text. */
module Data {
  import opened Types

  const INITIAL_KNOWLEDGE: seq<DocInput> := [
    DocInput("manifesto-core", KNOWLEDGE,
      "\"THE HOUSE ALWAYS WINS\" \U{2014} MANIFESTO POOLPAYS.",
      Metadata("PoolPays Manifesto", "init-1", Some(CORE_IDENTITY), None)),
    DocInput("tech-architecture", KNOWLEDGE,
      "ARQUITETURA T\U{C9}CNICA (Under the Hood).",
      Metadata("Technical Architecture", "init-2", Some(TECH_DOCS), None)),
    DocInput("yield-mechanics", KNOWLEDGE,
      "ECONOMIA DO TOKEN & RENDIMENTO.",
      Metadata("Yield Mechanics", "init-3", Some(TECH_DOCS), None)),
    DocInput("brand-voice", KNOWLEDGE,
      "TOM DE VOZ DA MARCA.",
      Metadata("Brand Voice Guidelines", "init-4", Some(CORE_IDENTITY), None))
  ]

  const INITIAL_TASKS: seq<Task> := [
    Task("1.1.1", "1.1.1", "Manifesto Oficial", "Copywriter", Some("2024-11-27"), IN_PROGRESS,
      "Semana 1", "Brand Strategy",
      ["Redigir vers\U{E3}o PT", "Traduzir EN/CH/ES", "Validar com cliente"], "CREATIVE",
      map[IDEA := Some("Texto manifesto para site e v\U{ED}deo"), FORMAT := Some("Google Doc"),
          COPY := Some("The House Always Wins...")],
      None),
    Task("3.2.1", "3.2.1", "Reels: O que \U{E9} PoolPays", "Video Editor", Some("2024-12-14"), TODO,
      "Semana 3", "Conte\U{FA}do",
      ["Roteiro", "Locu\U{E7}\U{E3}o", "Edi\U{E7}\U{E3}o"], "REELS",
      map[IDEA := Some("Explicar o conceito de \"Be The House\" em 30s"), FORMAT := Some("9:16 Vertical"),
          DURATION := Some("30s"), SOUNDTRACK := Some("Cyberpunk Lofi (No Copyright)"),
          REFERENCE := Some("Link do concorrente X"), COPY := Some("Legenda do v\U{ED}deo aqui...")],
      None)
  ]
}
