/**
 * The fixed lists the pages render and key: the skill list (the same list appears in
 * client/src/pages/Home.jsx:12-63 and client/src/pages/About.jsx:7-58), the service
 * titles, the experience roles and the achievements.
 *
 * The skill list is kept in the six groups the source marks with comments; `Skills` is
 * their concatenation in source order.
 */
module SiteContent {

  const LanguagesAndFrameworks: seq<string> :=
    ["TypeScript", "Node.js", "NestJS", "Express.js", "Java", "Python", "C++"]

  const BackendArchitecture: seq<string> :=
    ["Modular Architecture", "Dependency Injection (DI)", "Microservices",
     "Object-Oriented Programming (OOP)", "SOLID Principles", "Domain-Driven Design (DDD)"]

  const DataLayer: seq<string> :=
    ["PostgreSQL", "MySQL", "MongoDB", "Redis", "Prisma", "TypeORM", "Mongoose"]

  const ApiAndIntegration: seq<string> :=
    ["RESTful API Design", "Stripe API", "JWT", "Passport.js", "WebSockets", "Postman"]

  const ReliabilityAndTesting: seq<string> :=
    ["Test-Driven Development (TDD)", "Jest", "Unit Testing", "Integration Testing", "ER Diagramming"]

  const CloudAndDevOps: seq<string> :=
    ["Docker", "AWS EC2", "AWS S3", "Cloudinary", "CI/CD Pipelines", "GitHub Actions", "Vercel", "Git"]

  const Skills: seq<string> :=
    LanguagesAndFrameworks + BackendArchitecture + DataLayer
    + ApiAndIntegration + ReliabilityAndTesting + CloudAndDevOps

  /** Titles of the four offered services, in display order. */
  const ServiceTitles: seq<string> :=
    ["Web Development", "AI Integration", "API Design & Consumption", "UI/UX Design"]

  /** The `role` of each experience entry, in timeline order. */
  const ExperienceRoles: seq<string> :=
    ["Software Engineer & BackEnd Architect",
     "B.Sc. in Computer Science & Engineering",
     "Higher Secondary Education (College)"]

  const Achievements: seq<string> :=
    ["Built web & app with backend stack. ",
     "CSE Project Show Champions in Spring '24 & Spring '25 for innovative solutions.",
     "Completed 100+ coding challenges on **HackerRank** (Problem Solving domain)."]
}
