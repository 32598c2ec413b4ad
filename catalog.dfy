/** The rule catalog, section by section in catalog order, and the
    catalog-wide facts about it: ids are distinct, every type is a declared
    type name, every dependency tag is a declared ecosystem. */
module Catalog {
  import opened Wrappers
  import opened Rules

  /** Rule `k` of the languages section (rules.py lines 101-124). */
  function LanguageRule(k: int): Rule
    requires 0 <= k < 23
  {
    if k == 0 then Rule("typescript", "TypeScript", Language, Some(M(files := Some(["tsconfig.json"]), extensions := Some([".ts", ".tsx"]))))
    else if k == 1 then Rule("javascript", "JavaScript", Language, Some(M(extensions := Some([".js", ".jsx", ".mjs", ".cjs"]))))
    else if k == 2 then Rule("python", "Python", Language, Some(M(files := Some(["requirements.txt", "setup.py", "pyproject.toml", "Pipfile"]), extensions := Some([".py"]))))
    else if k == 3 then Rule("rust", "Rust", Language, Some(M(files := Some(["Cargo.toml"]), extensions := Some([".rs"]))))
    else if k == 4 then Rule("go", "Go", Language, Some(M(files := Some(["go.mod", "go.sum"]), extensions := Some([".go"]))))
    else if k == 5 then Rule("java", "Java", Language, Some(M(files := Some(["pom.xml", "build.gradle", "build.gradle.kts"]), extensions := Some([".java"]))))
    else if k == 6 then Rule("csharp", "C#", Language, Some(M(extensions := Some([".cs", ".csproj", ".sln"]))))
    else if k == 7 then Rule("ruby", "Ruby", Language, Some(M(files := Some(["Gemfile", "Rakefile"]), extensions := Some([".rb"]))))
    else if k == 8 then Rule("php", "PHP", Language, Some(M(files := Some(["composer.json"]), extensions := Some([".php"]))))
    else if k == 9 then Rule("swift", "Swift", Language, Some(M(files := Some(["Package.swift"]), extensions := Some([".swift"]))))
    else if k == 10 then Rule("kotlin", "Kotlin", Language, Some(M(extensions := Some([".kt", ".kts"]))))
    else if k == 11 then Rule("elixir", "Elixir", Language, Some(M(files := Some(["mix.exs"]), extensions := Some([".ex", ".exs"]))))
    else if k == 12 then Rule("dart", "Dart", Language, Some(M(files := Some(["pubspec.yaml"]), extensions := Some([".dart"]))))
    else if k == 13 then Rule("scala", "Scala", Language, Some(M(files := Some(["build.sbt"]), extensions := Some([".scala"]))))
    else if k == 14 then Rule("cplusplus", "C++", Language, Some(M(files := Some(["CMakeLists.txt", "Makefile"]), extensions := Some([".cpp", ".cxx", ".cc", ".hpp"]))))
    else if k == 15 then Rule("c", "C", Language, Some(M(extensions := Some([".c", ".h"]))))
    else if k == 16 then Rule("lua", "Lua", Language, Some(M(extensions := Some([".lua"]))))
    else if k == 17 then Rule("r", "R", Language, Some(M(extensions := Some([".R", ".Rmd"]))))
    else if k == 18 then Rule("haskell", "Haskell", Language, Some(M(files := Some(["stack.yaml", "cabal.project"]), extensions := Some([".hs"]))))
    else if k == 19 then Rule("perl", "Perl", Language, Some(M(extensions := Some([".pl", ".pm"]))))
    else if k == 20 then Rule("bash", "Bash", Language, Some(M(extensions := Some([".sh", ".bash"]))))
    else if k == 21 then Rule("scss", "SCSS", Language, Some(M(extensions := Some([".scss", ".sass"]))))
    else Rule("css", "CSS", Language, Some(M(extensions := Some([".css"]))))
  }

  /** Rule `k` of the ui frameworks section (rules.py lines 126-138). */
  function UiFrameworkRule(k: int): Rule
    requires 0 <= k < 12
  {
    if k == 0 then Rule("react", "React", UiFramework, dependencies := [Npm("react")])
    else if k == 1 then Rule("vue", "Vue", UiFramework, Some(M(extensions := Some([".vue"]))), dependencies := [Npm("vue")])
    else if k == 2 then Rule("angular", "Angular", UiFramework, Some(M(files := Some(["angular.json"]))), dependencies := [Npm("@angular/core")])
    else if k == 3 then Rule("svelte", "Svelte", UiFramework, Some(M(extensions := Some([".svelte"]))), dependencies := [Npm("svelte")])
    else if k == 4 then Rule("solid", "SolidJS", UiFramework, dependencies := [Npm("solid-js")])
    else if k == 5 then Rule("preact", "Preact", UiFramework, dependencies := [Npm("preact")])
    else if k == 6 then Rule("htmx", "htmx", UiFramework, dependencies := [Npm("htmx.org")])
    else if k == 7 then Rule("alpine", "Alpine.js", UiFramework, dependencies := [Npm("alpinejs")])
    else if k == 8 then Rule("lit", "Lit", UiFramework, dependencies := [Npm("lit")])
    else if k == 9 then Rule("ember", "Ember.js", UiFramework, dependencies := [Npm("ember-source")])
    else if k == 10 then Rule("qwik", "Qwik", UiFramework, dependencies := [Npm("@builder.io/qwik")])
    else Rule("stencil", "Stencil", UiFramework, dependencies := [Npm("@stencil/core")])
  }

  /** Rule `k` of the frameworks section (rules.py lines 140-168). */
  function FrameworkRule(k: int): Rule
    requires 0 <= k < 25
  {
    if k == 0 then Rule("nextjs", "Next.js", Framework, Some(M(files := Some(["next.config.js", "next.config.mjs", "next.config.ts"]))), dependencies := [Npm("next")])
    else if k == 1 then Rule("nuxt", "Nuxt", Framework, Some(M(files := Some(["nuxt.config.js", "nuxt.config.ts"]))), dependencies := [Npm("nuxt")])
    else if k == 2 then Rule("sveltekit", "SvelteKit", Framework, dependencies := [Npm("@sveltejs/kit")])
    else if k == 3 then Rule("remix", "Remix", Framework, dependencies := [Npm("@remix-run/node"), Npm("@remix-run/react")])
    else if k == 4 then Rule("astro", "Astro", Framework, Some(M(files := Some(["astro.config.mjs", "astro.config.ts"]))), dependencies := [Npm("astro")])
    else if k == 5 then Rule("express", "Express", Framework, dependencies := [Npm("express")])
    else if k == 6 then Rule("fastify", "Fastify", Framework, dependencies := [Npm("fastify")])
    else if k == 7 then Rule("nestjs", "NestJS", Framework, dependencies := [Npm("@nestjs/core")])
    else if k == 8 then Rule("hono", "Hono", Framework, dependencies := [Npm("hono")])
    else if k == 9 then Rule("koa", "Koa", Framework, dependencies := [Npm("koa")])
    else if k == 10 then Rule("adonis", "AdonisJS", Framework, dependencies := [Npm("@adonisjs/core")])
    else if k == 11 then Rule("elysia", "Elysia", Framework, dependencies := [Npm("elysia")])
    else if k == 12 then Rule("blitz", "Blitz.js", Framework, dependencies := [Npm("blitz")])
    else if k == 13 then Rule("redwood", "RedwoodJS", Framework, dependencies := [Npm("@redwoodjs/core")])
    else if k == 14 then Rule("meteor", "Meteor", Framework, Some(M(files := Some([".meteor"]))))
    else if k == 15 then Rule("django", "Django", Framework, Some(M(files := Some(["manage.py"]))), dependencies := [PipDep("django"), PipDep("Django")])
    else if k == 16 then Rule("flask", "Flask", Framework, dependencies := [PipDep("flask"), PipDep("Flask")])
    else if k == 17 then Rule("fastapi", "FastAPI", Framework, dependencies := [PipDep("fastapi")])
    else if k == 18 then Rule("rails", "Ruby on Rails", Framework, Some(M(files := Some(["config/routes.rb", "bin/rails"]))), dependencies := [Gem("rails")])
    else if k == 19 then Rule("laravel", "Laravel", Framework, Some(M(files := Some(["artisan"]))), dependencies := [Composer("laravel/framework")])
    else if k == 20 then Rule("symfony", "Symfony", Framework, dependencies := [Composer("symfony/framework-bundle")])
    else if k == 21 then Rule("spring", "Spring", Framework, Some(M(contentPatterns := Some([ContentPattern("pom.xml", ["spring-boot", "spring-framework"]), ContentPattern("build.gradle", ["spring-boot", "spring-framework"])]))))
    else if k == 22 then Rule("dotnet", ".NET / ASP.NET", Framework, Some(M(files := Some(["appsettings.json", "Startup.cs", "Program.cs"]), extensions := Some([".csproj"]))))
    else if k == 23 then Rule("tauri", "Tauri", Framework, Some(M(files := Some(["src-tauri"]))), dependencies := [Npm("@tauri-apps/cli")])
    else Rule("electron", "Electron", Framework, dependencies := [Npm("electron")])
  }

  /** Rule `k` of the ui libraries section (rules.py lines 170-183). */
  function UiLibraryRule(k: int): Rule
    requires 0 <= k < 13
  {
    if k == 0 then Rule("tailwind", "Tailwind CSS", Ui, Some(M(files := Some(["tailwind.config.js", "tailwind.config.ts", "tailwind.config.cjs"]))), dependencies := [Npm("tailwindcss")])
    else if k == 1 then Rule("shadcn", "shadcn/ui", Ui, Some(M(files := Some(["components.json"]))))
    else if k == 2 then Rule("materialui", "Material UI", Ui, dependencies := [Npm("@mui/material")])
    else if k == 3 then Rule("chakra", "Chakra UI", Ui, dependencies := [Npm("@chakra-ui/react")])
    else if k == 4 then Rule("antd", "Ant Design", Ui, dependencies := [Npm("antd")])
    else if k == 5 then Rule("radix", "Radix UI", Ui, dependencies := [Npm("@radix-ui/react-dialog"), Npm("@radix-ui/themes")])
    else if k == 6 then Rule("headlessui", "Headless UI", Ui, dependencies := [Npm("@headlessui/react")])
    else if k == 7 then Rule("bootstrap", "Bootstrap", Ui, dependencies := [Npm("bootstrap"), Npm("react-bootstrap")])
    else if k == 8 then Rule("daisyui", "daisyUI", Ui, dependencies := [Npm("daisyui")])
    else if k == 9 then Rule("mantine", "Mantine", Ui, dependencies := [Npm("@mantine/core")])
    else if k == 10 then Rule("heroui", "HeroUI", Ui, dependencies := [Npm("@heroui/react")])
    else if k == 11 then Rule("d3", "D3.js", Ui, dependencies := [Npm("d3")])
    else Rule("storybook", "Storybook", Ui, Some(M(files := Some([".storybook"]))), dependencies := [Npm("storybook"), Npm("@storybook/react")])
  }

  /** Rule `k` of the ssg section (rules.py lines 185-195). */
  function StaticSiteGeneratorRule(k: int): Rule
    requires 0 <= k < 10
  {
    if k == 0 then Rule("gatsby", "Gatsby", Ssg, dependencies := [Npm("gatsby")])
    else if k == 1 then Rule("hugo", "Hugo", Ssg, Some(M(files := Some(["hugo.toml", "hugo.yaml", "config.toml"]))))
    else if k == 2 then Rule("jekyll", "Jekyll", Ssg, Some(M(files := Some(["_config.yml"]))), dependencies := [Gem("jekyll")])
    else if k == 3 then Rule("docusaurus", "Docusaurus", Ssg, dependencies := [Npm("@docusaurus/core")])
    else if k == 4 then Rule("vitepress", "VitePress", Ssg, dependencies := [Npm("vitepress")])
    else if k == 5 then Rule("vuepress", "VuePress", Ssg, dependencies := [Npm("vuepress")])
    else if k == 6 then Rule("eleventy", "Eleventy", Ssg, Some(M(files := Some([".eleventy.js", "eleventy.config.js"]))), dependencies := [Npm("@11ty/eleventy")])
    else if k == 7 then Rule("mkdocs", "MkDocs", Ssg, Some(M(files := Some(["mkdocs.yml"]))), dependencies := [PipDep("mkdocs")])
    else if k == 8 then Rule("hexo", "Hexo", Ssg, dependencies := [Npm("hexo")])
    else Rule("mintlify", "Mintlify", Ssg, Some(M(files := Some(["mint.json"]))))
  }

  /** Rule `k` of the builders / bundlers section (rules.py lines 197-207). */
  function BuilderRule(k: int): Rule
    requires 0 <= k < 10
  {
    if k == 0 then Rule("vite", "Vite", Builder, Some(M(files := Some(["vite.config.js", "vite.config.ts"]))), dependencies := [Npm("vite")])
    else if k == 1 then Rule("webpack", "Webpack", Builder, Some(M(files := Some(["webpack.config.js", "webpack.config.ts"]))), dependencies := [Npm("webpack")])
    else if k == 2 then Rule("esbuild", "esbuild", Builder, dependencies := [Npm("esbuild")])
    else if k == 3 then Rule("rollup", "Rollup", Builder, Some(M(files := Some(["rollup.config.js", "rollup.config.ts"]))), dependencies := [Npm("rollup")])
    else if k == 4 then Rule("swc", "SWC", Builder, dependencies := [Npm("@swc/core")])
    else if k == 5 then Rule("babel", "Babel", Builder, Some(M(files := Some(["babel.config.js", ".babelrc", "babel.config.json"]))), dependencies := [Npm("@babel/core")])
    else if k == 6 then Rule("parcel", "Parcel", Builder, dependencies := [Npm("parcel")])
    else if k == 7 then Rule("turborepo", "Turborepo", Builder, Some(M(files := Some(["turbo.json"]))), dependencies := [Npm("turbo")])
    else if k == 8 then Rule("nx", "Nx", Builder, Some(M(files := Some(["nx.json"]))), dependencies := [Npm("nx")])
    else Rule("rspack", "Rspack", Builder, dependencies := [Npm("@rspack/core")])
  }

  /** Rule `k` of the linters / formatters section (rules.py lines 209-215). */
  function LinterRule(k: int): Rule
    requires 0 <= k < 6
  {
    if k == 0 then Rule("eslint", "ESLint", Linter, Some(M(files := Some([".eslintrc", ".eslintrc.js", ".eslintrc.json", ".eslintrc.yml", "eslint.config.js", "eslint.config.mjs", "eslint.config.ts"]))), dependencies := [Npm("eslint")])
    else if k == 1 then Rule("prettier", "Prettier", Linter, Some(M(files := Some([".prettierrc", ".prettierrc.json", ".prettierrc.js", "prettier.config.js", "prettier.config.mjs"]))), dependencies := [Npm("prettier")])
    else if k == 2 then Rule("biome", "Biome", Linter, Some(M(files := Some(["biome.json", "biome.jsonc"]))), dependencies := [Npm("@biomejs/biome")])
    else if k == 3 then Rule("stylelint", "Stylelint", Linter, Some(M(files := Some([".stylelintrc", ".stylelintrc.json"]))), dependencies := [Npm("stylelint")])
    else if k == 4 then Rule("oxlint", "oxlint", Linter, dependencies := [Npm("oxlint")])
    else Rule("rubocop", "RuboCop", Linter, Some(M(files := Some([".rubocop.yml"]))), dependencies := [Gem("rubocop")])
  }

  /** Rule `k` of the testing section (rules.py lines 217-228). */
  function TestingRule(k: int): Rule
    requires 0 <= k < 11
  {
    if k == 0 then Rule("jest", "Jest", Test, Some(M(files := Some(["jest.config.js", "jest.config.ts", "jest.config.mjs"]))), dependencies := [Npm("jest")])
    else if k == 1 then Rule("vitest", "Vitest", Test, Some(M(files := Some(["vitest.config.ts", "vitest.config.js"]))), dependencies := [Npm("vitest")])
    else if k == 2 then Rule("mocha", "Mocha", Test, dependencies := [Npm("mocha")])
    else if k == 3 then Rule("cypress", "Cypress", Test, Some(M(files := Some(["cypress.config.js", "cypress.config.ts", "cypress"]))), dependencies := [Npm("cypress")])
    else if k == 4 then Rule("playwright", "Playwright", Test, Some(M(files := Some(["playwright.config.ts", "playwright.config.js"]))), dependencies := [Npm("@playwright/test"), Npm("playwright"), PipDep("playwright")])
    else if k == 5 then Rule("puppeteer", "Puppeteer", Test, dependencies := [Npm("puppeteer")])
    else if k == 6 then Rule("selenium", "Selenium", Test, dependencies := [Npm("selenium-webdriver"), PipDep("selenium"), Gem("selenium-webdriver")])
    else if k == 7 then Rule("testing-library", "Testing Library", Test, dependencies := [Npm("@testing-library/react"), Npm("@testing-library/jest-dom")])
    else if k == 8 then Rule("pytest", "pytest", Test, dependencies := [PipDep("pytest")])
    else if k == 9 then Rule("phpunit", "PHPUnit", Test, Some(M(files := Some(["phpunit.xml", "phpunit.xml.dist"]))), dependencies := [Composer("phpunit/phpunit")])
    else Rule("k6", "k6", Test, dependencies := [Npm("k6")])
  }

  /** Rule `k` of the validation section (rules.py lines 230-236). */
  function ValidationRule(k: int): Rule
    requires 0 <= k < 6
  {
    if k == 0 then Rule("zod", "Zod", Validation, dependencies := [Npm("zod")])
    else if k == 1 then Rule("joi", "Joi", Validation, dependencies := [Npm("joi")])
    else if k == 2 then Rule("yup", "Yup", Validation, dependencies := [Npm("yup")])
    else if k == 3 then Rule("valibot", "Valibot", Validation, dependencies := [Npm("valibot")])
    else if k == 4 then Rule("typebox", "TypeBox", Validation, dependencies := [Npm("@sinclair/typebox")])
    else Rule("ajv", "Ajv", Validation, dependencies := [Npm("ajv")])
  }

  /** Rule `k` of the orm / data access section (rules.py lines 238-249). */
  function OrmRule(k: int): Rule
    requires 0 <= k < 11
  {
    if k == 0 then Rule("prisma", "Prisma", Orm, Some(M(files := Some(["schema.prisma", "prisma/schema.prisma"]))), dependencies := [Npm("prisma"), Npm("@prisma/client")])
    else if k == 1 then Rule("drizzle", "Drizzle", Orm, dependencies := [Npm("drizzle-orm")])
    else if k == 2 then Rule("typeorm", "TypeORM", Orm, dependencies := [Npm("typeorm")])
    else if k == 3 then Rule("sequelize", "Sequelize", Orm, Some(M(files := Some([".sequelizerc"]))), dependencies := [Npm("sequelize")])
    else if k == 4 then Rule("knex", "Knex", Orm, dependencies := [Npm("knex")])
    else if k == 5 then Rule("kysely", "Kysely", Orm, dependencies := [Npm("kysely")])
    else if k == 6 then Rule("mongoose", "Mongoose", Orm, dependencies := [Npm("mongoose")])
    else if k == 7 then Rule("sqlalchemy", "SQLAlchemy", Orm, dependencies := [PipDep("SQLAlchemy"), PipDep("sqlalchemy")])
    else if k == 8 then Rule("gorm", "GORM", Orm, dependencies := [GoMod("gorm.io/gorm")])
    else if k == 9 then Rule("diesel", "Diesel", Orm, Some(M(files := Some(["diesel.toml"]))), dependencies := [Cargo("diesel")])
    else Rule("doctrine", "Doctrine", Orm, dependencies := [Composer("doctrine/orm")])
  }

  /** Rule `k` of the ci / cd section (rules.py lines 251-263). */
  function CiCdRule(k: int): Rule
    requires 0 <= k < 12
  {
    if k == 0 then Rule("github-actions", "GitHub Actions", Ci, Some(M(files := Some([".github/workflows"]))))
    else if k == 1 then Rule("gitlab-ci", "GitLab CI", Ci, Some(M(files := Some([".gitlab-ci.yml"]))))
    else if k == 2 then Rule("jenkins", "Jenkins", Ci, Some(M(files := Some(["Jenkinsfile"]))))
    else if k == 3 then Rule("circleci", "CircleCI", Ci, Some(M(files := Some([".circleci/config.yml", ".circleci"]))))
    else if k == 4 then Rule("travis", "Travis CI", Ci, Some(M(files := Some([".travis.yml"]))))
    else if k == 5 then Rule("azure-pipelines", "Azure Pipelines", Ci, Some(M(files := Some(["azure-pipelines.yml"]))))
    else if k == 6 then Rule("bitbucket-pipelines", "Bitbucket Pipelines", Ci, Some(M(files := Some(["bitbucket-pipelines.yml"]))))
    else if k == 7 then Rule("appveyor", "AppVeyor", Ci, Some(M(files := Some(["appveyor.yml", ".appveyor.yml"]))))
    else if k == 8 then Rule("dependabot", "Dependabot", Ci, Some(M(files := Some([".github/dependabot.yml"]))))
    else if k == 9 then Rule("renovate", "Renovate", Ci, Some(M(files := Some(["renovate.json", "renovate.json5", ".renovaterc", ".renovaterc.json"]))))
    else if k == 10 then Rule("codecov", "Codecov", Ci, Some(M(files := Some(["codecov.yml", ".codecov.yml"]))))
    else Rule("sonarcloud", "SonarCloud", Ci, Some(M(files := Some(["sonar-project.properties"]))))
  }

  /** Rule `k` of the cloud providers section (rules.py lines 265-275). */
  function CloudProviderRule(k: int): Rule
    requires 0 <= k < 10
  {
    if k == 0 then Rule("aws", "AWS", Cloud, Some(M(files := Some(["serverless.yml", "samconfig.toml", "template.yaml", "cdk.json"]))), dependencies := [Npm("aws-sdk"), Npm("@aws-sdk/client-s3"), PipDep("boto3")], dotenv := ["AWS_"])
    else if k == 1 then Rule("gcp", "Google Cloud", Cloud, dependencies := [Npm("@google-cloud/storage"), Npm("@google-cloud/pubsub"), PipDep("google-cloud-storage")], dotenv := ["GOOGLE_CLOUD_", "GCP_", "GCLOUD_"])
    else if k == 2 then Rule("azure", "Azure", Cloud, dependencies := [Npm("@azure/storage-blob"), Npm("@azure/identity")], dotenv := ["AZURE_"])
    else if k == 3 then Rule("firebase", "Firebase", Cloud, Some(M(files := Some(["firebase.json", ".firebaserc"]))), dependencies := [Npm("firebase"), Npm("firebase-admin")], dotenv := ["FIREBASE_"])
    else if k == 4 then Rule("cloudflare", "Cloudflare", Cloud, Some(M(files := Some(["wrangler.toml", "wrangler.json"]))), dependencies := [Npm("wrangler"), Npm("@cloudflare/workers-types")])
    else if k == 5 then Rule("supabase", "Supabase", Cloud, Some(M(files := Some(["supabase"]))), dependencies := [Npm("@supabase/supabase-js")], dotenv := ["SUPABASE_", "NEXT_PUBLIC_SUPABASE_"])
    else if k == 6 then Rule("heroku", "Heroku", Cloud, Some(M(files := Some(["Procfile", "app.json"]))))
    else if k == 7 then Rule("flyio", "Fly.io", Cloud, Some(M(files := Some(["fly.toml"]))))
    else if k == 8 then Rule("railway", "Railway", Cloud, Some(M(files := Some(["railway.json", "railway.toml"]))))
    else Rule("dokku", "Dokku", Cloud, Some(M(files := Some(["DOKKU_SCALE"]))))
  }

  /** Rule `k` of the hosting section (rules.py lines 277-284). */
  function HostingRule(k: int): Rule
    requires 0 <= k < 7
  {
    if k == 0 then Rule("vercel", "Vercel", Hosting, Some(M(files := Some(["vercel.json", ".vercel"]))), dependencies := [Npm("@vercel/analytics")])
    else if k == 1 then Rule("netlify", "Netlify", Hosting, Some(M(files := Some(["netlify.toml", "_redirects"]))))
    else if k == 2 then Rule("github-pages", "GitHub Pages", Hosting, Some(M(files := Some(["CNAME"]))))
    else if k == 3 then Rule("docker", "Docker", Hosting, Some(M(files := Some(["Dockerfile", "docker-compose.yml", "docker-compose.yaml", "compose.yaml", "compose.yml", ".dockerignore"]))))
    else if k == 4 then Rule("kubernetes", "Kubernetes", Hosting, Some(M(files := Some(["k8s", "kubernetes", "skaffold.yaml"]))))
    else if k == 5 then Rule("digitalocean", "DigitalOcean", Hosting, Some(M(files := Some([".do/app.yaml"]))), dotenv := ["DIGITALOCEAN_"])
    else Rule("render", "Render", Hosting, Some(M(files := Some(["render.yaml"]))))
  }

  /** Rule `k` of the iac section (rules.py lines 286-291). */
  function IacRule(k: int): Rule
    requires 0 <= k < 5
  {
    if k == 0 then Rule("terraform", "Terraform", Iac, Some(M(files := Some(["main.tf", "terraform.tfvars"]), extensions := Some([".tf"]))))
    else if k == 1 then Rule("pulumi", "Pulumi", Iac, Some(M(files := Some(["Pulumi.yaml", "Pulumi.yml"]))), dependencies := [Npm("@pulumi/pulumi"), PipDep("pulumi")])
    else if k == 2 then Rule("ansible", "Ansible", Iac, Some(M(files := Some(["ansible.cfg", "playbook.yml"]))), dependencies := [PipDep("ansible")])
    else if k == 3 then Rule("helm", "Helm", Iac, Some(M(files := Some(["Chart.yaml"]))))
    else Rule("terragrunt", "Terragrunt", Iac, Some(M(files := Some(["terragrunt.hcl"]))))
  }

  /** Rule `k` of the databases section (rules.py lines 293-316). */
  function DatabaseRule(k: int): Rule
    requires 0 <= k < 23
  {
    if k == 0 then Rule("postgresql", "PostgreSQL", Db, dependencies := [Npm("pg"), Npm("postgres"), PipDep("psycopg2"), PipDep("psycopg"), Docker("postgres")], dotenv := ["POSTGRES_", "PG_", "DATABASE_URL"])
    else if k == 1 then Rule("mysql", "MySQL", Db, dependencies := [Npm("mysql"), Npm("mysql2"), PipDep("mysqlclient"), PipDep("PyMySQL"), Docker("mysql")], dotenv := ["MYSQL_"])
    else if k == 2 then Rule("mongodb", "MongoDB", Db, dependencies := [Npm("mongodb"), PipDep("pymongo"), PipDep("motor"), Docker("mongo")], dotenv := ["MONGO_", "MONGODB_"])
    else if k == 3 then Rule("redis", "Redis", Db, dependencies := [Npm("redis"), Npm("ioredis"), PipDep("redis"), Docker("redis"), GoMod("github.com/redis/go-redis")], dotenv := ["REDIS_"])
    else if k == 4 then Rule("sqlite", "SQLite", Db, Some(M(extensions := Some([".sqlite", ".db"]))), dependencies := [Npm("better-sqlite3"), Npm("sqlite3"), PipDep("aiosqlite")])
    else if k == 5 then Rule("elasticsearch", "Elasticsearch", Db, dependencies := [Npm("@elastic/elasticsearch"), PipDep("elasticsearch"), Docker("elasticsearch")], dotenv := ["ELASTIC_", "ELASTICSEARCH_"])
    else if k == 6 then Rule("neo4j", "Neo4j", Db, dependencies := [Npm("neo4j-driver"), PipDep("neo4j"), Docker("neo4j")])
    else if k == 7 then Rule("cassandra", "Cassandra", Db, dependencies := [Npm("cassandra-driver"), PipDep("cassandra-driver"), Docker("cassandra")])
    else if k == 8 then Rule("clickhouse", "ClickHouse", Db, dependencies := [Npm("@clickhouse/client"), Docker("clickhouse/clickhouse-server"), PipDep("clickhouse-connect")])
    else if k == 9 then Rule("influxdb", "InfluxDB", Db, dependencies := [Npm("@influxdata/influxdb-client"), Docker("influxdb")])
    else if k == 10 then Rule("mssql", "Microsoft SQL Server", Db, dependencies := [Npm("mssql"), Npm("tedious"), Docker("mcr.microsoft.com/mssql/server")])
    else if k == 11 then Rule("mariadb", "MariaDB", Db, dependencies := [Npm("mariadb"), Docker("mariadb")])
    else if k == 12 then Rule("couchbase", "Couchbase", Db, dependencies := [Npm("couchbase"), Docker("couchbase")])
    else if k == 13 then Rule("dynamodb", "DynamoDB", Db, dependencies := [Npm("@aws-sdk/client-dynamodb"), Npm("dynamoose")], dotenv := ["DYNAMODB_"])
    else if k == 14 then Rule("cockroachdb", "CockroachDB", Db, dependencies := [Docker("cockroachdb/cockroach")])
    else if k == 15 then Rule("surrealdb", "SurrealDB", Db, dependencies := [Npm("surrealdb.js"), Docker("surrealdb/surrealdb")])
    else if k == 16 then Rule("duckdb", "DuckDB", Db, dependencies := [Npm("duckdb"), PipDep("duckdb")])
    else if k == 17 then Rule("neondb", "Neon", Db, dependencies := [Npm("@neondatabase/serverless")], dotenv := ["NEON_"])
    else if k == 18 then Rule("planetscale", "PlanetScale", Db, dependencies := [Npm("@planetscale/database")], dotenv := ["PLANETSCALE_"])
    else if k == 19 then Rule("turso", "Turso", Db, dependencies := [Npm("@libsql/client")], dotenv := ["TURSO_"])
    else if k == 20 then Rule("meilisearch", "Meilisearch", Db, dependencies := [Npm("meilisearch"), Docker("getmeili/meilisearch")])
    else if k == 21 then Rule("typesense", "Typesense", Db, dependencies := [Npm("typesense"), Docker("typesense/typesense")])
    else Rule("algolia", "Algolia", Db, dependencies := [Npm("algoliasearch")], dotenv := ["ALGOLIA_"])
  }

  /** Rule `k` of the vector dbs section (rules.py lines 317-322). */
  function VectorDatabaseRule(k: int): Rule
    requires 0 <= k < 5
  {
    if k == 0 then Rule("pinecone", "Pinecone", Db, dependencies := [Npm("@pinecone-database/pinecone"), PipDep("pinecone-client")], dotenv := ["PINECONE_"])
    else if k == 1 then Rule("chromadb", "ChromaDB", Db, dependencies := [Npm("chromadb"), PipDep("chromadb")])
    else if k == 2 then Rule("qdrant", "Qdrant", Db, dependencies := [Npm("@qdrant/js-client-rest"), PipDep("qdrant-client")])
    else if k == 3 then Rule("milvus", "Milvus", Db, dependencies := [Npm("@zilliz/milvus2-sdk-node"), PipDep("pymilvus")])
    else Rule("weaviate", "Weaviate", Db, dependencies := [Npm("weaviate-ts-client"), PipDep("weaviate-client")])
  }

  /** Rule `k` of the queue / messaging section (rules.py lines 324-331). */
  function QueueRule(k: int): Rule
    requires 0 <= k < 7
  {
    if k == 0 then Rule("rabbitmq", "RabbitMQ", Queue, dependencies := [Npm("amqplib"), PipDep("pika"), Docker("rabbitmq")], dotenv := ["RABBITMQ_"])
    else if k == 1 then Rule("kafka", "Apache Kafka", Queue, dependencies := [Npm("kafkajs"), PipDep("kafka-python"), Docker("confluentinc/cp-kafka")], dotenv := ["KAFKA_"])
    else if k == 2 then Rule("bullmq", "BullMQ", Queue, dependencies := [Npm("bullmq"), Npm("bull")])
    else if k == 3 then Rule("sqs", "AWS SQS", Queue, dependencies := [Npm("@aws-sdk/client-sqs")], dotenv := ["SQS_"])
    else if k == 4 then Rule("nats", "NATS", Queue, dependencies := [Npm("nats"), Docker("nats")])
    else if k == 5 then Rule("celery", "Celery", Queue, dependencies := [PipDep("celery")])
    else Rule("pubsub", "Google Pub/Sub", Queue, dependencies := [Npm("@google-cloud/pubsub")])
  }

  /** Rule `k` of the storage section (rules.py lines 333-337). */
  function StorageRule(k: int): Rule
    requires 0 <= k < 4
  {
    if k == 0 then Rule("s3", "AWS S3", Storage, dependencies := [Npm("@aws-sdk/client-s3"), PipDep("boto3")], dotenv := ["S3_", "AWS_S3_"])
    else if k == 1 then Rule("cloudflare-r2", "Cloudflare R2", Storage, dependencies := [Npm("@cloudflare/r2")])
    else if k == 2 then Rule("cloudinary", "Cloudinary", Storage, dependencies := [Npm("cloudinary")], dotenv := ["CLOUDINARY_"])
    else Rule("minio", "MinIO", Storage, dependencies := [Npm("minio"), Docker("minio/minio")])
  }

  /** Rule `k` of the ai / ml section (rules.py lines 339-358). */
  function AiRule(k: int): Rule
    requires 0 <= k < 19
  {
    if k == 0 then Rule("openai", "OpenAI", Ai, dependencies := [Npm("openai"), PipDep("openai"), GoMod("github.com/sashabaranov/go-openai")], dotenv := ["OPENAI_"])
    else if k == 1 then Rule("anthropic", "Anthropic", Ai, dependencies := [Npm("@anthropic-ai/sdk"), PipDep("anthropic")], dotenv := ["ANTHROPIC_"])
    else if k == 2 then Rule("google-ai", "Google AI / Gemini", Ai, dependencies := [Npm("@google/generative-ai"), PipDep("google-generativeai")], dotenv := ["GOOGLE_AI_", "GEMINI_"])
    else if k == 3 then Rule("cohere", "Cohere", Ai, dependencies := [Npm("cohere-ai"), PipDep("cohere")], dotenv := ["COHERE_"])
    else if k == 4 then Rule("huggingface", "Hugging Face", Ai, dependencies := [Npm("@huggingface/inference"), PipDep("transformers"), PipDep("huggingface_hub")], dotenv := ["HUGGINGFACE_", "HF_"])
    else if k == 5 then Rule("replicate", "Replicate", Ai, dependencies := [Npm("replicate"), PipDep("replicate")], dotenv := ["REPLICATE_"])
    else if k == 6 then Rule("langchain", "LangChain", Ai, dependencies := [Npm("langchain"), PipDep("langchain")], dotenv := ["LANGCHAIN_"])
    else if k == 7 then Rule("llamaindex", "LlamaIndex", Ai, dependencies := [Npm("llamaindex"), PipDep("llama-index")])
    else if k == 8 then Rule("vercel-ai", "Vercel AI SDK", Ai, dependencies := [Npm("ai"), Npm("@ai-sdk/openai")])
    else if k == 9 then Rule("ollama", "Ollama", Ai, dependencies := [Npm("ollama"), PipDep("ollama")], dotenv := ["OLLAMA_"])
    else if k == 10 then Rule("mistral", "Mistral AI", Ai, dependencies := [Npm("@mistralai/mistralai"), PipDep("mistralai")], dotenv := ["MISTRAL_"])
    else if k == 11 then Rule("groq", "Groq", Ai, dependencies := [Npm("groq-sdk"), PipDep("groq")], dotenv := ["GROQ_"])
    else if k == 12 then Rule("deepseek", "DeepSeek", Ai, dependencies := [Npm("deepseek"), PipDep("deepseek")], dotenv := ["DEEPSEEK_"])
    else if k == 13 then Rule("xai", "xAI", Ai, dependencies := [Npm("@x-ai/sdk")], dotenv := ["XAI_"])
    else if k == 14 then Rule("elevenlabs", "ElevenLabs", Ai, dependencies := [Npm("elevenlabs"), PipDep("elevenlabs")], dotenv := ["ELEVENLABS_"])
    else if k == 15 then Rule("tensorflow", "TensorFlow", Ai, dependencies := [Npm("@tensorflow/tfjs"), PipDep("tensorflow")])
    else if k == 16 then Rule("pytorch", "PyTorch", Ai, dependencies := [PipDep("torch"), PipDep("pytorch")])
    else if k == 17 then Rule("aws-bedrock", "AWS Bedrock", Ai, dependencies := [Npm("@aws-sdk/client-bedrock-runtime")], dotenv := ["BEDROCK_"])
    else Rule("azure-openai", "Azure OpenAI", Ai, dependencies := [Npm("@azure/openai")], dotenv := ["AZURE_OPENAI_"])
  }

  /** Rule `k` of the analytics section (rules.py lines 360-369). */
  function AnalyticsRule(k: int): Rule
    requires 0 <= k < 9
  {
    if k == 0 then Rule("google-analytics", "Google Analytics", Analytics, dependencies := [Npm("react-ga"), Npm("react-ga4")], dotenv := ["GA_", "GOOGLE_ANALYTICS_"])
    else if k == 1 then Rule("posthog", "PostHog", Analytics, dependencies := [Npm("posthog-js"), Npm("posthog-node"), PipDep("posthog")], dotenv := ["POSTHOG_", "NEXT_PUBLIC_POSTHOG_"])
    else if k == 2 then Rule("segment", "Segment", Analytics, dependencies := [Npm("@segment/analytics-next"), Npm("analytics-node")], dotenv := ["SEGMENT_"])
    else if k == 3 then Rule("mixpanel", "Mixpanel", Analytics, dependencies := [Npm("mixpanel"), Npm("mixpanel-browser")], dotenv := ["MIXPANEL_"])
    else if k == 4 then Rule("amplitude", "Amplitude", Analytics, dependencies := [Npm("@amplitude/analytics-browser"), Npm("@amplitude/analytics-node")], dotenv := ["AMPLITUDE_"])
    else if k == 5 then Rule("plausible", "Plausible", Analytics, dependencies := [Npm("plausible-tracker")], dotenv := ["PLAUSIBLE_"])
    else if k == 6 then Rule("hotjar", "Hotjar", Analytics, dependencies := [Npm("@hotjar/browser")])
    else if k == 7 then Rule("fathom", "Fathom", Analytics, dependencies := [Npm("fathom-client")], dotenv := ["FATHOM_"])
    else Rule("vercel-analytics", "Vercel Analytics", Analytics, dependencies := [Npm("@vercel/analytics")])
  }

  /** Rule `k` of the monitoring / observability section (rules.py lines 371-383). */
  function MonitoringRule(k: int): Rule
    requires 0 <= k < 12
  {
    if k == 0 then Rule("sentry", "Sentry", Monitoring, Some(M(files := Some([".sentryclirc"]))), dependencies := [Npm("@sentry/node"), Npm("@sentry/browser"), Npm("@sentry/react"), Npm("@sentry/nextjs"), PipDep("sentry-sdk"), Cargo("sentry"), Gem("sentry-ruby")], dotenv := ["SENTRY_"])
    else if k == 1 then Rule("datadog", "Datadog", Monitoring, dependencies := [Npm("dd-trace"), PipDep("ddtrace")], dotenv := ["DD_", "DATADOG_"])
    else if k == 2 then Rule("newrelic", "New Relic", Monitoring, Some(M(files := Some(["newrelic.js", "newrelic.yml"]))), dependencies := [Npm("newrelic"), PipDep("newrelic")], dotenv := ["NEW_RELIC_", "NEWRELIC_"])
    else if k == 3 then Rule("opentelemetry", "OpenTelemetry", Monitoring, dependencies := [Npm("@opentelemetry/api"), Npm("@opentelemetry/sdk-node"), PipDep("opentelemetry-api")], dotenv := ["OTEL_"])
    else if k == 4 then Rule("prometheus", "Prometheus", Monitoring, dependencies := [Npm("prom-client"), Docker("prom/prometheus")])
    else if k == 5 then Rule("grafana", "Grafana", Monitoring, dependencies := [Docker("grafana/grafana")], dotenv := ["GRAFANA_"])
    else if k == 6 then Rule("logrocket", "LogRocket", Monitoring, dependencies := [Npm("logrocket")], dotenv := ["LOGROCKET_"])
    else if k == 7 then Rule("bugsnag", "Bugsnag", Monitoring, dependencies := [Npm("@bugsnag/js"), Npm("@bugsnag/react")], dotenv := ["BUGSNAG_"])
    else if k == 8 then Rule("rollbar", "Rollbar", Monitoring, dependencies := [Npm("rollbar"), PipDep("rollbar")], dotenv := ["ROLLBAR_"])
    else if k == 9 then Rule("pagerduty", "PagerDuty", Monitoring, dependencies := [Npm("@pagerduty/pdjs")], dotenv := ["PAGERDUTY_"])
    else if k == 10 then Rule("betterstack", "Better Stack", Monitoring, dependencies := [Npm("@logtail/node")], dotenv := ["LOGTAIL_", "BETTERSTACK_"])
    else Rule("honeybadger", "Honeybadger", Monitoring, dependencies := [Npm("@honeybadger-io/js")], dotenv := ["HONEYBADGER_"])
  }

  /** Rule `k` of the auth section (rules.py lines 385-396). */
  function AuthRule(k: int): Rule
    requires 0 <= k < 11
  {
    if k == 0 then Rule("auth0", "Auth0", Auth, dependencies := [Npm("@auth0/nextjs-auth0"), Npm("auth0"), Npm("@auth0/auth0-react")], dotenv := ["AUTH0_"])
    else if k == 1 then Rule("clerk", "Clerk", Auth, dependencies := [Npm("@clerk/nextjs"), Npm("@clerk/clerk-react")], dotenv := ["CLERK_", "NEXT_PUBLIC_CLERK_"])
    else if k == 2 then Rule("nextauth", "NextAuth.js / Auth.js", Auth, dependencies := [Npm("next-auth"), Npm("@auth/core")])
    else if k == 3 then Rule("supabase-auth", "Supabase Auth", Auth, dependencies := [Npm("@supabase/auth-helpers-nextjs"), Npm("@supabase/ssr")])
    else if k == 4 then Rule("firebase-auth", "Firebase Auth", Auth, dependencies := [Npm("firebase/auth"), Npm("@react-firebase/auth")])
    else if k == 5 then Rule("okta", "Okta", Auth, dependencies := [Npm("@okta/okta-react"), Npm("@okta/okta-auth-js")], dotenv := ["OKTA_"])
    else if k == 6 then Rule("kinde", "Kinde", Auth, dependencies := [Npm("@kinde-oss/kinde-auth-nextjs")], dotenv := ["KINDE_"])
    else if k == 7 then Rule("better-auth", "Better Auth", Auth, dependencies := [Npm("better-auth")])
    else if k == 8 then Rule("logto", "Logto", Auth, dependencies := [Npm("@logto/next")], dotenv := ["LOGTO_"])
    else if k == 9 then Rule("cognito", "AWS Cognito", Auth, dependencies := [Npm("@aws-sdk/client-cognito-identity-provider")], dotenv := ["COGNITO_"])
    else Rule("keycloak", "Keycloak", Auth, dependencies := [Npm("keycloak-js"), Docker("keycloak/keycloak")], dotenv := ["KEYCLOAK_"])
  }

  /** Rule `k` of the payment section (rules.py lines 398-403). */
  function PaymentRule(k: int): Rule
    requires 0 <= k < 5
  {
    if k == 0 then Rule("stripe", "Stripe", Payment, dependencies := [Npm("stripe"), Npm("@stripe/stripe-js"), PipDep("stripe"), Gem("stripe"), GoMod("github.com/stripe/stripe-go")], dotenv := ["STRIPE_"])
    else if k == 1 then Rule("paypal", "PayPal", Payment, dependencies := [Npm("@paypal/checkout-server-sdk"), Npm("@paypal/react-paypal-js")], dotenv := ["PAYPAL_"])
    else if k == 2 then Rule("paddle", "Paddle", Payment, dependencies := [Npm("@paddle/paddle-js")], dotenv := ["PADDLE_"])
    else if k == 3 then Rule("lemon-squeezy", "Lemon Squeezy", Payment, dependencies := [Npm("@lemonsqueezy/lemonsqueezy.js")], dotenv := ["LEMONSQUEEZY_"])
    else Rule("razorpay", "Razorpay", Payment, dependencies := [Npm("razorpay")], dotenv := ["RAZORPAY_"])
  }

  /** Rule `k` of the notification / email section (rules.py lines 405-412). */
  function NotificationRule(k: int): Rule
    requires 0 <= k < 7
  {
    if k == 0 then Rule("sendgrid", "SendGrid", Notification, dependencies := [Npm("@sendgrid/mail")], dotenv := ["SENDGRID_"])
    else if k == 1 then Rule("resend", "Resend", Notification, dependencies := [Npm("resend")], dotenv := ["RESEND_"])
    else if k == 2 then Rule("mailgun", "Mailgun", Notification, dependencies := [Npm("mailgun.js"), Npm("mailgun-js")], dotenv := ["MAILGUN_"])
    else if k == 3 then Rule("twilio", "Twilio", Notification, dependencies := [Npm("twilio"), PipDep("twilio")], dotenv := ["TWILIO_"])
    else if k == 4 then Rule("postmark", "Postmark", Notification, dependencies := [Npm("postmark")], dotenv := ["POSTMARK_"])
    else if k == 5 then Rule("ses", "AWS SES", Notification, dependencies := [Npm("@aws-sdk/client-ses")], dotenv := ["SES_"])
    else Rule("novu", "Novu", Notification, dependencies := [Npm("@novu/node")], dotenv := ["NOVU_"])
  }

  /** Rule `k` of the cms section (rules.py lines 414-425). */
  function CmsRule(k: int): Rule
    requires 0 <= k < 11
  {
    if k == 0 then Rule("strapi", "Strapi", Cms, dependencies := [Npm("@strapi/strapi")])
    else if k == 1 then Rule("sanity", "Sanity", Cms, dependencies := [Npm("@sanity/client"), Npm("sanity")], dotenv := ["SANITY_", "NEXT_PUBLIC_SANITY_"])
    else if k == 2 then Rule("contentful", "Contentful", Cms, dependencies := [Npm("contentful")], dotenv := ["CONTENTFUL_"])
    else if k == 3 then Rule("wordpress", "WordPress", Cms, Some(M(files := Some(["wp-config.php", "wp-content"]))))
    else if k == 4 then Rule("payload-cms", "Payload CMS", Cms, dependencies := [Npm("payload")])
    else if k == 5 then Rule("ghost", "Ghost", Cms, dependencies := [Npm("@tryghost/content-api")])
    else if k == 6 then Rule("datocms", "DatoCMS", Cms, dependencies := [Npm("react-datocms")], dotenv := ["DATOCMS_", "DATO_"])
    else if k == 7 then Rule("storyblok", "Storyblok", Cms, dependencies := [Npm("@storyblok/react")], dotenv := ["STORYBLOK_"])
    else if k == 8 then Rule("directus", "Directus", Cms, dependencies := [Npm("@directus/sdk")])
    else if k == 9 then Rule("keystone", "Keystone", Cms, dependencies := [Npm("@keystone-6/core")])
    else Rule("shopify", "Shopify", Cms, dependencies := [Npm("@shopify/shopify-api"), Npm("@shopify/hydrogen")], dotenv := ["SHOPIFY_"])
  }

  /** Rule `k` of the security section (rules.py lines 427-431). */
  function SecurityRule(k: int): Rule
    requires 0 <= k < 4
  {
    if k == 0 then Rule("snyk", "Snyk", Security, Some(M(files := Some([".snyk"]))))
    else if k == 1 then Rule("vault", "HashiCorp Vault", Security, dependencies := [Npm("node-vault"), Docker("hashicorp/vault")], dotenv := ["VAULT_"])
    else if k == 2 then Rule("infisical", "Infisical", Security, Some(M(files := Some([".infisical.json"]))), dependencies := [Npm("@infisical/sdk")], dotenv := ["INFISICAL_"])
    else Rule("gitguardian", "GitGuardian", Security, Some(M(files := Some([".gitguardian.yml"]))))
  }

  /** Rule `k` of the automation section (rules.py lines 433-439). */
  function AutomationRule(k: int): Rule
    requires 0 <= k < 6
  {
    if k == 0 then Rule("puppeteer-auto", "Puppeteer", Automation, dependencies := [Npm("puppeteer")])
    else if k == 1 then Rule("playwright-auto", "Playwright", Automation, dependencies := [Npm("playwright"), PipDep("playwright")])
    else if k == 2 then Rule("n8n", "n8n", Automation, dependencies := [Npm("n8n"), Docker("n8nio/n8n")])
    else if k == 3 then Rule("inngest", "Inngest", Automation, dependencies := [Npm("inngest")])
    else if k == 4 then Rule("temporal", "Temporal", Automation, dependencies := [Npm("@temporalio/client"), PipDep("temporalio")])
    else Rule("trigger-dev", "Trigger.dev", Automation, dependencies := [Npm("@trigger.dev/sdk")])
  }

  /** Rule `k` of the saas / misc tools section (rules.py lines 441-450). */
  function SaasToolRule(k: int): Rule
    requires 0 <= k < 9
  {
    if k == 0 then Rule("socketio", "Socket.IO", Tool, dependencies := [Npm("socket.io"), Npm("socket.io-client")])
    else if k == 1 then Rule("trpc", "tRPC", Tool, dependencies := [Npm("@trpc/server"), Npm("@trpc/client")])
    else if k == 2 then Rule("graphql", "GraphQL", Tool, dependencies := [Npm("graphql"), Npm("@apollo/client"), Npm("urql")])
    else if k == 3 then Rule("openapi", "OpenAPI", Tool, Some(M(files := Some(["openapi.yaml", "openapi.json", "swagger.yaml", "swagger.json"]))))
    else if k == 4 then Rule("grpc", "gRPC", Tool, dependencies := [Npm("@grpc/grpc-js"), PipDep("grpcio")])
    else if k == 5 then Rule("mcp", "Model Context Protocol", Tool, dependencies := [Npm("@modelcontextprotocol/sdk"), PipDep("mcp")])
    else if k == 6 then Rule("react-email", "React Email", Tool, dependencies := [Npm("@react-email/components"), Npm("react-email")])
    else if k == 7 then Rule("launchdarkly", "LaunchDarkly", Saas, dependencies := [Npm("@launchdarkly/node-server-sdk")], dotenv := ["LAUNCHDARKLY_"])
    else Rule("figma", "Figma", Saas, dependencies := [Npm("figma-api")], dotenv := ["FIGMA_"])
  }

  /** Rule `k` of the package managers section (rules.py lines 452-462). */
  function PackageManagerRule(k: int): Rule
    requires 0 <= k < 10
  {
    if k == 0 then Rule("npm", "npm", PackageManager, Some(M(files := Some(["package-lock.json"]))))
    else if k == 1 then Rule("yarn", "Yarn", PackageManager, Some(M(files := Some(["yarn.lock"]))))
    else if k == 2 then Rule("pnpm", "pnpm", PackageManager, Some(M(files := Some(["pnpm-lock.yaml", "pnpm-workspace.yaml"]))))
    else if k == 3 then Rule("bun-pkg", "Bun", PackageManager, Some(M(files := Some(["bun.lockb", "bunfig.toml"]))))
    else if k == 4 then Rule("cargo-pkg", "Cargo", PackageManager, Some(M(files := Some(["Cargo.lock"]))))
    else if k == 5 then Rule("pip-pkg", "pip", PackageManager, Some(M(files := Some(["requirements.txt"]))))
    else if k == 6 then Rule("poetry", "Poetry", PackageManager, Some(M(files := Some(["poetry.lock"]))), dependencies := [PipDep("poetry")])
    else if k == 7 then Rule("pipenv", "Pipenv", PackageManager, Some(M(files := Some(["Pipfile.lock"]))))
    else if k == 8 then Rule("bundler", "Bundler", PackageManager, Some(M(files := Some(["Gemfile.lock"]))))
    else Rule("composer-pkg", "Composer", PackageManager, Some(M(files := Some(["composer.lock"]))))
  }

  /** Rule `k` of the runtime section (rules.py lines 464-467). */
  function RuntimeRule(k: int): Rule
    requires 0 <= k < 3
  {
    if k == 0 then Rule("nodejs", "Node.js", Runtime, Some(M(files := Some(["package.json", ".nvmrc", ".node-version"]))))
    else if k == 1 then Rule("deno", "Deno", Runtime, Some(M(files := Some(["deno.json", "deno.jsonc", "deno.lock"]))))
    else Rule("bun-rt", "Bun", Runtime, Some(M(files := Some(["bun.lockb", "bunfig.toml"]))))
  }

  /** Rule `k` of the app / infrastructure images section (rules.py lines 469-478). */
  function AppImageRule(k: int): Rule
    requires 0 <= k < 9
  {
    if k == 0 then Rule("nginx", "Nginx", App, Some(M(files := Some(["nginx.conf"]))), dependencies := [Docker("nginx")])
    else if k == 1 then Rule("caddy", "Caddy", App, Some(M(files := Some(["Caddyfile"]))), dependencies := [Docker("caddy")])
    else if k == 2 then Rule("traefik", "Traefik", App, dependencies := [Docker("traefik")])
    else if k == 3 then Rule("kong", "Kong", App, dependencies := [Docker("kong")])
    else if k == 4 then Rule("haproxy", "HAProxy", App, dependencies := [Docker("haproxy")])
    else if k == 5 then Rule("vault-app", "HashiCorp Vault", App, dependencies := [Docker("hashicorp/vault")])
    else if k == 6 then Rule("consul", "Consul", App, dependencies := [Docker("consul")])
    else if k == 7 then Rule("zookeeper", "Zookeeper", App, dependencies := [Docker("zookeeper")])
    else Rule("kibana", "Kibana", App, dependencies := [Docker("kibana")])
  }

  /** The number of rules in the catalog. */
  const RuleCount := 315

  /** Rule `i` of the catalog: the sections one after another. */
  function RuleAt(i: int): Rule
    requires 0 <= i < RuleCount
  {
    if i < 23 then LanguageRule(i)
    else if i < 35 then UiFrameworkRule(i - 23)
    else if i < 60 then FrameworkRule(i - 35)
    else if i < 73 then UiLibraryRule(i - 60)
    else if i < 83 then StaticSiteGeneratorRule(i - 73)
    else if i < 93 then BuilderRule(i - 83)
    else if i < 99 then LinterRule(i - 93)
    else if i < 110 then TestingRule(i - 99)
    else if i < 116 then ValidationRule(i - 110)
    else if i < 127 then OrmRule(i - 116)
    else if i < 139 then CiCdRule(i - 127)
    else if i < 149 then CloudProviderRule(i - 139)
    else if i < 156 then HostingRule(i - 149)
    else if i < 161 then IacRule(i - 156)
    else if i < 184 then DatabaseRule(i - 161)
    else if i < 189 then VectorDatabaseRule(i - 184)
    else if i < 196 then QueueRule(i - 189)
    else if i < 200 then StorageRule(i - 196)
    else if i < 219 then AiRule(i - 200)
    else if i < 228 then AnalyticsRule(i - 219)
    else if i < 240 then MonitoringRule(i - 228)
    else if i < 251 then AuthRule(i - 240)
    else if i < 256 then PaymentRule(i - 251)
    else if i < 263 then NotificationRule(i - 256)
    else if i < 274 then CmsRule(i - 263)
    else if i < 278 then SecurityRule(i - 274)
    else if i < 284 then AutomationRule(i - 278)
    else if i < 293 then SaasToolRule(i - 284)
    else if i < 303 then PackageManagerRule(i - 293)
    else if i < 306 then RuntimeRule(i - 303)
    else AppImageRule(i - 306)
  }

  /** The whole catalog, in evaluation order. */
  function AllRules(): (rs: seq<Rule>)
    ensures |rs| == RuleCount
  {
    seq(RuleCount, i requires 0 <= i < RuleCount => RuleAt(i))
  }

  /** The catalog position of each rule id, or -1 for an id the catalog
      does not use. Grouped by length and first letter so that each lookup
      compares few strings. */
  function IdPosition(id: string): int {
    if |id| == 1 then
      if id[0] == 'c' then (match id case "c" => 15 case _ => -1)
      else if id[0] == 'r' then (match id case "r" => 17 case _ => -1)
      else -1
    else if |id| == 2 then
      if id[0] == 'd' then (match id case "d3" => 71 case _ => -1)
      else if id[0] == 'g' then (match id case "go" => 4 case _ => -1)
      else if id[0] == 'k' then (match id case "k6" => 109 case _ => -1)
      else if id[0] == 'n' then (match id case "nx" => 91 case _ => -1)
      else if id[0] == 's' then (match id case "s3" => 196 case _ => -1)
      else -1
    else if |id| == 3 then
      if id[0] == 'a' then (match id case "ajv" => 115 case "aws" => 139 case _ => -1)
      else if id[0] == 'c' then (match id case "css" => 22 case _ => -1)
      else if id[0] == 'g' then (match id case "gcp" => 140 case _ => -1)
      else if id[0] == 'j' then (match id case "joi" => 111 case _ => -1)
      else if id[0] == 'k' then (match id case "koa" => 44 case _ => -1)
      else if id[0] == 'l' then (match id case "lua" => 16 case "lit" => 31 case _ => -1)
      else if id[0] == 'm' then (match id case "mcp" => 289 case _ => -1)
      else if id[0] == 'n' then (match id case "n8n" => 280 case "npm" => 293 case _ => -1)
      else if id[0] == 'p' then (match id case "php" => 8 case _ => -1)
      else if id[0] == 's' then (match id case "swc" => 87 case "sqs" => 192 case "ses" => 261 case _ => -1)
      else if id[0] == 'v' then (match id case "vue" => 24 case _ => -1)
      else if id[0] == 'x' then (match id case "xai" => 213 case _ => -1)
      else if id[0] == 'y' then (match id case "yup" => 112 case _ => -1)
      else if id[0] == 'z' then (match id case "zod" => 110 case _ => -1)
      else -1
    else if |id| == 4 then
      if id[0] == 'a' then (match id case "antd" => 64 case _ => -1)
      else if id[0] == 'b' then (match id case "bash" => 20 case _ => -1)
      else if id[0] == 'd' then (match id case "dart" => 12 case "deno" => 304 case _ => -1)
      else if id[0] == 'g' then (match id case "gorm" => 124 case "groq" => 211 case "grpc" => 288 case _ => -1)
      else if id[0] == 'h' then (match id case "htmx" => 29 case "hono" => 43 case "hugo" => 74 case "hexo" => 81 case "helm" => 159 case _ => -1)
      else if id[0] == 'j' then (match id case "java" => 5 case "jest" => 99 case _ => -1)
      else if id[0] == 'k' then (match id case "knex" => 120 case "kong" => 309 case _ => -1)
      else if id[0] == 'n' then (match id case "nuxt" => 36 case "nats" => 193 case "novu" => 262 case _ => -1)
      else if id[0] == 'o' then (match id case "okta" => 245 case _ => -1)
      else if id[0] == 'p' then (match id case "perl" => 19 case "pnpm" => 295 case _ => -1)
      else if id[0] == 'q' then (match id case "qwik" => 33 case _ => -1)
      else if id[0] == 'r' then (match id case "rust" => 3 case "ruby" => 7 case _ => -1)
      else if id[0] == 's' then (match id case "scss" => 21 case "snyk" => 274 case _ => -1)
      else if id[0] == 't' then (match id case "trpc" => 285 case _ => -1)
      else if id[0] == 'v' then (match id case "vite" => 83 case _ => -1)
      else if id[0] == 'y' then (match id case "yarn" => 294 case _ => -1)
      else -1
    else if |id| == 5 then
      if id[0] == 'a' then (match id case "astro" => 39 case "azure" => 141 case "auth0" => 240 case _ => -1)
      else if id[0] == 'b' then (match id case "blitz" => 47 case "babel" => 88 case "biome" => 95 case _ => -1)
      else if id[0] == 'c' then (match id case "clerk" => 241 case "caddy" => 307 case _ => -1)
      else if id[0] == 'd' then (match id case "dokku" => 148 case _ => -1)
      else if id[0] == 'e' then (match id case "ember" => 32 case _ => -1)
      else if id[0] == 'f' then (match id case "flask" => 51 case "flyio" => 146 case "figma" => 292 case _ => -1)
      else if id[0] == 'g' then (match id case "ghost" => 268 case _ => -1)
      else if id[0] == 'k' then (match id case "kafka" => 190 case "kinde" => 246 case _ => -1)
      else if id[0] == 'l' then (match id case "logto" => 248 case _ => -1)
      else if id[0] == 'm' then (match id case "mocha" => 101 case "mysql" => 162 case "mssql" => 171 case "minio" => 199 case _ => -1)
      else if id[0] == 'n' then (match id case "neo4j" => 167 case "nginx" => 306 case _ => -1)
      else if id[0] == 'r' then (match id case "react" => 23 case "remix" => 38 case "rails" => 53 case "radix" => 65 case "redis" => 164 case _ => -1)
      else if id[0] == 's' then (match id case "swift" => 9 case "scala" => 13 case "solid" => 27 case _ => -1)
      else if id[0] == 't' then (match id case "tauri" => 58 case "turso" => 180 case _ => -1)
      else if id[0] == 'v' then (match id case "vault" => 275 case _ => -1)
      else -1
    else if |id| == 6 then
      if id[0] == 'a' then (match id case "alpine" => 30 case "adonis" => 45 case _ => -1)
      else if id[0] == 'b' then (match id case "bullmq" => 191 case "bun-rt" => 305 case _ => -1)
      else if id[0] == 'c' then (match id case "csharp" => 6 case "chakra" => 63 case "celery" => 194 case "cohere" => 203 case "consul" => 312 case _ => -1)
      else if id[0] == 'd' then (match id case "django" => 50 case "dotnet" => 57 case "diesel" => 125 case "docker" => 152 case "duckdb" => 177 case _ => -1)
      else if id[0] == 'e' then (match id case "elixir" => 11 case "elysia" => 46 case "eslint" => 93 case _ => -1)
      else if id[0] == 'f' then (match id case "fathom" => 226 case _ => -1)
      else if id[0] == 'g' then (match id case "gatsby" => 73 case _ => -1)
      else if id[0] == 'h' then (match id case "heroui" => 70 case "heroku" => 145 case "hotjar" => 225 case _ => -1)
      else if id[0] == 'j' then (match id case "jekyll" => 75 case _ => -1)
      else if id[0] == 'k' then (match id case "kotlin" => 10 case "kysely" => 121 case "kibana" => 314 case _ => -1)
      else if id[0] == 'm' then (match id case "meteor" => 49 case "mkdocs" => 80 case "milvus" => 187 case _ => -1)
      else if id[0] == 'n' then (match id case "nextjs" => 35 case "nestjs" => 42 case "neondb" => 178 case "nodejs" => 303 case _ => -1)
      else if id[0] == 'o' then (match id case "oxlint" => 97 case "openai" => 200 case "ollama" => 209 case _ => -1)
      else if id[0] == 'p' then (match id case "python" => 2 case "preact" => 28 case "parcel" => 89 case "pytest" => 107 case "prisma" => 116 case "pulumi" => 157 case "pubsub" => 195 case "paypal" => 252 case "paddle" => 253 case "poetry" => 299 case "pipenv" => 300 case _ => -1)
      else if id[0] == 'q' then (match id case "qdrant" => 186 case _ => -1)
      else if id[0] == 'r' then (match id case "rollup" => 86 case "rspack" => 92 case "render" => 155 case "resend" => 257 case _ => -1)
      else if id[0] == 's' then (match id case "svelte" => 26 case "spring" => 56 case "shadcn" => 61 case "sqlite" => 165 case "sentry" => 228 case "stripe" => 251 case "strapi" => 263 case "sanity" => 264 case _ => -1)
      else if id[0] == 't' then (match id case "travis" => 131 case "twilio" => 259 case _ => -1)
      else if id[0] == 'v' then (match id case "vitest" => 100 case "vercel" => 149 case _ => -1)
      else -1
    else if |id| == 7 then
      if id[0] == 'a' then (match id case "angular" => 25 case "ansible" => 158 case "algolia" => 183 case _ => -1)
      else if id[0] == 'b' then (match id case "bugsnag" => 235 case "bun-pkg" => 296 case "bundler" => 301 case _ => -1)
      else if id[0] == 'c' then (match id case "cypress" => 102 case "codecov" => 137 case "cognito" => 249 case _ => -1)
      else if id[0] == 'd' then (match id case "daisyui" => 68 case "drizzle" => 117 case "datadog" => 229 case "datocms" => 269 case _ => -1)
      else if id[0] == 'e' then (match id case "express" => 40 case "esbuild" => 85 case _ => -1)
      else if id[0] == 'f' then (match id case "fastify" => 41 case "fastapi" => 52 case _ => -1)
      else if id[0] == 'g' then (match id case "grafana" => 233 case "graphql" => 286 case _ => -1)
      else if id[0] == 'h' then (match id case "haskell" => 18 case "haproxy" => 310 case _ => -1)
      else if id[0] == 'i' then (match id case "inngest" => 281 case _ => -1)
      else if id[0] == 'j' then (match id case "jenkins" => 129 case _ => -1)
      else if id[0] == 'l' then (match id case "laravel" => 54 case _ => -1)
      else if id[0] == 'm' then (match id case "mantine" => 69 case "mongodb" => 163 case "mariadb" => 172 case "mistral" => 210 case "mailgun" => 258 case _ => -1)
      else if id[0] == 'n' then (match id case "netlify" => 150 case _ => -1)
      else if id[0] == 'o' then (match id case "openapi" => 287 case _ => -1)
      else if id[0] == 'p' then (match id case "phpunit" => 108 case "pytorch" => 216 case "posthog" => 220 case "pip-pkg" => 298 case _ => -1)
      else if id[0] == 'r' then (match id case "redwood" => 48 case "rubocop" => 98 case "railway" => 147 case "rollbar" => 236 case _ => -1)
      else if id[0] == 's' then (match id case "stencil" => 34 case "symfony" => 55 case "segment" => 221 case "shopify" => 273 case _ => -1)
      else if id[0] == 't' then (match id case "typebox" => 114 case "typeorm" => 118 case "traefik" => 308 case _ => -1)
      else if id[0] == 'v' then (match id case "valibot" => 113 case _ => -1)
      else if id[0] == 'w' then (match id case "webpack" => 84 case _ => -1)
      else -1
    else if |id| == 8 then
      if id[0] == 'a' then (match id case "appveyor" => 134 case _ => -1)
      else if id[0] == 'c' then (match id case "circleci" => 130 case "chromadb" => 185 case _ => -1)
      else if id[0] == 'd' then (match id case "doctrine" => 126 case "dynamodb" => 174 case "deepseek" => 212 case "directus" => 271 case _ => -1)
      else if id[0] == 'e' then (match id case "electron" => 59 case "eleventy" => 79 case _ => -1)
      else if id[0] == 'f' then (match id case "firebase" => 142 case _ => -1)
      else if id[0] == 'i' then (match id case "influxdb" => 170 case _ => -1)
      else if id[0] == 'k' then (match id case "keycloak" => 250 case "keystone" => 272 case _ => -1)
      else if id[0] == 'm' then (match id case "mintlify" => 82 case "mongoose" => 122 case "mixpanel" => 222 case _ => -1)
      else if id[0] == 'n' then (match id case "newrelic" => 230 case "nextauth" => 242 case _ => -1)
      else if id[0] == 'p' then (match id case "prettier" => 94 case "pinecone" => 184 case "postmark" => 260 case _ => -1)
      else if id[0] == 'r' then (match id case "renovate" => 136 case "rabbitmq" => 189 case "razorpay" => 255 case _ => -1)
      else if id[0] == 's' then (match id case "selenium" => 105 case "supabase" => 144 case "sendgrid" => 256 case "socketio" => 284 case _ => -1)
      else if id[0] == 't' then (match id case "tailwind" => 60 case "temporal" => 282 case _ => -1)
      else if id[0] == 'v' then (match id case "vuepress" => 78 case _ => -1)
      else if id[0] == 'w' then (match id case "weaviate" => 188 case _ => -1)
      else -1
    else if |id| == 9 then
      if id[0] == 'a' then (match id case "anthropic" => 201 case "amplitude" => 223 case _ => -1)
      else if id[0] == 'b' then (match id case "bootstrap" => 67 case _ => -1)
      else if id[0] == 'c' then (match id case "cplusplus" => 14 case "cassandra" => 168 case "couchbase" => 173 case "cargo-pkg" => 297 case _ => -1)
      else if id[0] == 'g' then (match id case "gitlab-ci" => 128 case "google-ai" => 202 case _ => -1)
      else if id[0] == 'i' then (match id case "infisical" => 276 case _ => -1)
      else if id[0] == 'l' then (match id case "langchain" => 206 case "logrocket" => 234 case _ => -1)
      else if id[0] == 'p' then (match id case "puppeteer" => 104 case "plausible" => 224 case "pagerduty" => 237 case _ => -1)
      else if id[0] == 'r' then (match id case "replicate" => 205 case _ => -1)
      else if id[0] == 's' then (match id case "sveltekit" => 37 case "storybook" => 72 case "stylelint" => 96 case "sequelize" => 119 case "surrealdb" => 176 case "storyblok" => 270 case _ => -1)
      else if id[0] == 't' then (match id case "turborepo" => 90 case "terraform" => 156 case "typesense" => 182 case _ => -1)
      else if id[0] == 'v' then (match id case "vitepress" => 77 case "vercel-ai" => 208 case "vault-app" => 311 case _ => -1)
      else if id[0] == 'w' then (match id case "wordpress" => 266 case _ => -1)
      else if id[0] == 'z' then (match id case "zookeeper" => 313 case _ => -1)
      else -1
    else if |id| == 10 then
      if id[0] == 'c' then (match id case "cloudflare" => 143 case "clickhouse" => 169 case "cloudinary" => 198 case "contentful" => 265 case _ => -1)
      else if id[0] == 'd' then (match id case "docusaurus" => 76 case "dependabot" => 135 case _ => -1)
      else if id[0] == 'e' then (match id case "elevenlabs" => 214 case _ => -1)
      else if id[0] == 'h' then (match id case "headlessui" => 66 case _ => -1)
      else if id[0] == 'j' then (match id case "javascript" => 1 case _ => -1)
      else if id[0] == 'k' then (match id case "kubernetes" => 153 case _ => -1)
      else if id[0] == 'l' then (match id case "llamaindex" => 207 case _ => -1)
      else if id[0] == 'm' then (match id case "materialui" => 62 case _ => -1)
      else if id[0] == 'p' then (match id case "playwright" => 103 case "postgresql" => 161 case "prometheus" => 232 case _ => -1)
      else if id[0] == 's' then (match id case "sqlalchemy" => 123 case "sonarcloud" => 138 case _ => -1)
      else if id[0] == 't' then (match id case "typescript" => 0 case "terragrunt" => 160 case "tensorflow" => 215 case _ => -1)
      else -1
    else if |id| == 11 then
      if id[0] == 'a' then (match id case "aws-bedrock" => 217 case _ => -1)
      else if id[0] == 'b' then (match id case "betterstack" => 238 case "better-auth" => 247 case _ => -1)
      else if id[0] == 'c' then (match id case "cockroachdb" => 175 case _ => -1)
      else if id[0] == 'g' then (match id case "gitguardian" => 277 case _ => -1)
      else if id[0] == 'h' then (match id case "huggingface" => 204 case "honeybadger" => 239 case _ => -1)
      else if id[0] == 'm' then (match id case "meilisearch" => 181 case _ => -1)
      else if id[0] == 'p' then (match id case "planetscale" => 179 case "payload-cms" => 267 case _ => -1)
      else if id[0] == 'r' then (match id case "react-email" => 290 case _ => -1)
      else if id[0] == 't' then (match id case "trigger-dev" => 283 case _ => -1)
      else -1
    else if |id| == 12 then
      if id[0] == 'a' then (match id case "azure-openai" => 218 case _ => -1)
      else if id[0] == 'c' then (match id case "composer-pkg" => 302 case _ => -1)
      else if id[0] == 'd' then (match id case "digitalocean" => 154 case _ => -1)
      else if id[0] == 'g' then (match id case "github-pages" => 151 case _ => -1)
      else if id[0] == 'l' then (match id case "launchdarkly" => 291 case _ => -1)
      else -1
    else if |id| == 13 then
      if id[0] == 'c' then (match id case "cloudflare-r2" => 197 case _ => -1)
      else if id[0] == 'e' then (match id case "elasticsearch" => 166 case _ => -1)
      else if id[0] == 'f' then (match id case "firebase-auth" => 244 case _ => -1)
      else if id[0] == 'l' then (match id case "lemon-squeezy" => 254 case _ => -1)
      else if id[0] == 'o' then (match id case "opentelemetry" => 231 case _ => -1)
      else if id[0] == 's' then (match id case "supabase-auth" => 243 case _ => -1)
      else -1
    else if |id| == 14 then
      if id[0] == 'g' then (match id case "github-actions" => 127 case _ => -1)
      else if id[0] == 'p' then (match id case "puppeteer-auto" => 278 case _ => -1)
      else -1
    else if |id| == 15 then
      if id[0] == 'a' then (match id case "azure-pipelines" => 132 case _ => -1)
      else if id[0] == 'p' then (match id case "playwright-auto" => 279 case _ => -1)
      else if id[0] == 't' then (match id case "testing-library" => 106 case _ => -1)
      else -1
    else if |id| == 16 then
      if id[0] == 'g' then (match id case "google-analytics" => 219 case _ => -1)
      else if id[0] == 'v' then (match id case "vercel-analytics" => 227 case _ => -1)
      else -1
    else if |id| == 19 then
      if id[0] == 'b' then (match id case "bitbucket-pipelines" => 133 case _ => -1)
      else -1
    else -1
  }

  /** Rule `i` has catalog position `i`. */
  predicate RankedAt(i: int)
    requires 0 <= i < RuleCount
  {
    IdPosition(RuleAt(i).id) == i
  }

  lemma LanguageRanked1()
    ensures forall k :: 0 <= k < 6 ==> IdPosition(LanguageRule(k).id) == k
  {
    forall k | 0 <= k < 6 ensures IdPosition(LanguageRule(k).id) == k {
      if k == 0 {} else if k == 1 {} else if k == 2 {} else if k == 3 {} else if k == 4 {} else if k == 5 {}
    }
  }

  lemma LanguageRanked2()
    ensures forall k :: 6 <= k < 12 ==> IdPosition(LanguageRule(k).id) == k
  {
    forall k | 6 <= k < 12 ensures IdPosition(LanguageRule(k).id) == k {
      if k == 6 {} else if k == 7 {} else if k == 8 {} else if k == 9 {} else if k == 10 {} else if k == 11 {}
    }
  }

  lemma LanguageRanked3()
    ensures forall k :: 12 <= k < 18 ==> IdPosition(LanguageRule(k).id) == k
  {
    forall k | 12 <= k < 18 ensures IdPosition(LanguageRule(k).id) == k {
      if k == 12 {} else if k == 13 {} else if k == 14 {} else if k == 15 {} else if k == 16 {} else if k == 17 {}
    }
  }

  lemma LanguageRanked4()
    ensures forall k :: 18 <= k < 23 ==> IdPosition(LanguageRule(k).id) == k
  {
    forall k | 18 <= k < 23 ensures IdPosition(LanguageRule(k).id) == k {
      if k == 18 {} else if k == 19 {} else if k == 20 {} else if k == 21 {} else if k == 22 {}
    }
  }

  lemma UiFrameworkRanked1()
    ensures forall k :: 0 <= k < 6 ==> IdPosition(UiFrameworkRule(k).id) == 23 + k
  {
    forall k | 0 <= k < 6 ensures IdPosition(UiFrameworkRule(k).id) == 23 + k {
      if k == 0 {} else if k == 1 {} else if k == 2 {} else if k == 3 {} else if k == 4 {} else if k == 5 {}
    }
  }

  lemma UiFrameworkRanked2()
    ensures forall k :: 6 <= k < 12 ==> IdPosition(UiFrameworkRule(k).id) == 23 + k
  {
    forall k | 6 <= k < 12 ensures IdPosition(UiFrameworkRule(k).id) == 23 + k {
      if k == 6 {} else if k == 7 {} else if k == 8 {} else if k == 9 {} else if k == 10 {} else if k == 11 {}
    }
  }

  lemma FrameworkRanked1()
    ensures forall k :: 0 <= k < 6 ==> IdPosition(FrameworkRule(k).id) == 35 + k
  {
    forall k | 0 <= k < 6 ensures IdPosition(FrameworkRule(k).id) == 35 + k {
      if k == 0 {} else if k == 1 {} else if k == 2 {} else if k == 3 {} else if k == 4 {} else if k == 5 {}
    }
  }

  lemma FrameworkRanked2()
    ensures forall k :: 6 <= k < 12 ==> IdPosition(FrameworkRule(k).id) == 35 + k
  {
    forall k | 6 <= k < 12 ensures IdPosition(FrameworkRule(k).id) == 35 + k {
      if k == 6 {} else if k == 7 {} else if k == 8 {} else if k == 9 {} else if k == 10 {} else if k == 11 {}
    }
  }

  lemma FrameworkRanked3()
    ensures forall k :: 12 <= k < 18 ==> IdPosition(FrameworkRule(k).id) == 35 + k
  {
    forall k | 12 <= k < 18 ensures IdPosition(FrameworkRule(k).id) == 35 + k {
      if k == 12 {} else if k == 13 {} else if k == 14 {} else if k == 15 {} else if k == 16 {} else if k == 17 {}
    }
  }

  lemma FrameworkRanked4()
    ensures forall k :: 18 <= k < 24 ==> IdPosition(FrameworkRule(k).id) == 35 + k
  {
    forall k | 18 <= k < 24 ensures IdPosition(FrameworkRule(k).id) == 35 + k {
      if k == 18 {} else if k == 19 {} else if k == 20 {} else if k == 21 {} else if k == 22 {} else if k == 23 {}
    }
  }

  lemma FrameworkRanked5()
    ensures forall k :: 24 <= k < 25 ==> IdPosition(FrameworkRule(k).id) == 35 + k
  {
    forall k | 24 <= k < 25 ensures IdPosition(FrameworkRule(k).id) == 35 + k {
      if k == 24 {}
    }
  }

  lemma UiLibraryRanked1()
    ensures forall k :: 0 <= k < 6 ==> IdPosition(UiLibraryRule(k).id) == 60 + k
  {
    forall k | 0 <= k < 6 ensures IdPosition(UiLibraryRule(k).id) == 60 + k {
      if k == 0 {} else if k == 1 {} else if k == 2 {} else if k == 3 {} else if k == 4 {} else if k == 5 {}
    }
  }

  lemma UiLibraryRanked2()
    ensures forall k :: 6 <= k < 12 ==> IdPosition(UiLibraryRule(k).id) == 60 + k
  {
    forall k | 6 <= k < 12 ensures IdPosition(UiLibraryRule(k).id) == 60 + k {
      if k == 6 {} else if k == 7 {} else if k == 8 {} else if k == 9 {} else if k == 10 {} else if k == 11 {}
    }
  }

  lemma UiLibraryRanked3()
    ensures forall k :: 12 <= k < 13 ==> IdPosition(UiLibraryRule(k).id) == 60 + k
  {
    forall k | 12 <= k < 13 ensures IdPosition(UiLibraryRule(k).id) == 60 + k {
      if k == 12 {}
    }
  }

  lemma StaticSiteGeneratorRanked1()
    ensures forall k :: 0 <= k < 6 ==> IdPosition(StaticSiteGeneratorRule(k).id) == 73 + k
  {
    forall k | 0 <= k < 6 ensures IdPosition(StaticSiteGeneratorRule(k).id) == 73 + k {
      if k == 0 {} else if k == 1 {} else if k == 2 {} else if k == 3 {} else if k == 4 {} else if k == 5 {}
    }
  }

  lemma StaticSiteGeneratorRanked2()
    ensures forall k :: 6 <= k < 10 ==> IdPosition(StaticSiteGeneratorRule(k).id) == 73 + k
  {
    forall k | 6 <= k < 10 ensures IdPosition(StaticSiteGeneratorRule(k).id) == 73 + k {
      if k == 6 {} else if k == 7 {} else if k == 8 {} else if k == 9 {}
    }
  }

  lemma BuilderRanked1()
    ensures forall k :: 0 <= k < 6 ==> IdPosition(BuilderRule(k).id) == 83 + k
  {
    forall k | 0 <= k < 6 ensures IdPosition(BuilderRule(k).id) == 83 + k {
      if k == 0 {} else if k == 1 {} else if k == 2 {} else if k == 3 {} else if k == 4 {} else if k == 5 {}
    }
  }

  lemma BuilderRanked2()
    ensures forall k :: 6 <= k < 10 ==> IdPosition(BuilderRule(k).id) == 83 + k
  {
    forall k | 6 <= k < 10 ensures IdPosition(BuilderRule(k).id) == 83 + k {
      if k == 6 {} else if k == 7 {} else if k == 8 {} else if k == 9 {}
    }
  }

  lemma LinterRanked()
    ensures forall k :: 0 <= k < 6 ==> IdPosition(LinterRule(k).id) == 93 + k
  {
    forall k | 0 <= k < 6 ensures IdPosition(LinterRule(k).id) == 93 + k {
      if k == 0 {} else if k == 1 {} else if k == 2 {} else if k == 3 {} else if k == 4 {} else if k == 5 {}
    }
  }

  lemma TestingRanked1()
    ensures forall k :: 0 <= k < 6 ==> IdPosition(TestingRule(k).id) == 99 + k
  {
    forall k | 0 <= k < 6 ensures IdPosition(TestingRule(k).id) == 99 + k {
      if k == 0 {} else if k == 1 {} else if k == 2 {} else if k == 3 {} else if k == 4 {} else if k == 5 {}
    }
  }

  lemma TestingRanked2()
    ensures forall k :: 6 <= k < 11 ==> IdPosition(TestingRule(k).id) == 99 + k
  {
    forall k | 6 <= k < 11 ensures IdPosition(TestingRule(k).id) == 99 + k {
      if k == 6 {} else if k == 7 {} else if k == 8 {} else if k == 9 {} else if k == 10 {}
    }
  }

  lemma ValidationRanked()
    ensures forall k :: 0 <= k < 6 ==> IdPosition(ValidationRule(k).id) == 110 + k
  {
    forall k | 0 <= k < 6 ensures IdPosition(ValidationRule(k).id) == 110 + k {
      if k == 0 {} else if k == 1 {} else if k == 2 {} else if k == 3 {} else if k == 4 {} else if k == 5 {}
    }
  }

  lemma OrmRanked1()
    ensures forall k :: 0 <= k < 6 ==> IdPosition(OrmRule(k).id) == 116 + k
  {
    forall k | 0 <= k < 6 ensures IdPosition(OrmRule(k).id) == 116 + k {
      if k == 0 {} else if k == 1 {} else if k == 2 {} else if k == 3 {} else if k == 4 {} else if k == 5 {}
    }
  }

  lemma OrmRanked2()
    ensures forall k :: 6 <= k < 11 ==> IdPosition(OrmRule(k).id) == 116 + k
  {
    forall k | 6 <= k < 11 ensures IdPosition(OrmRule(k).id) == 116 + k {
      if k == 6 {} else if k == 7 {} else if k == 8 {} else if k == 9 {} else if k == 10 {}
    }
  }

  lemma CiCdRanked1()
    ensures forall k :: 0 <= k < 6 ==> IdPosition(CiCdRule(k).id) == 127 + k
  {
    forall k | 0 <= k < 6 ensures IdPosition(CiCdRule(k).id) == 127 + k {
      if k == 0 {} else if k == 1 {} else if k == 2 {} else if k == 3 {} else if k == 4 {} else if k == 5 {}
    }
  }

  lemma CiCdRanked2()
    ensures forall k :: 6 <= k < 12 ==> IdPosition(CiCdRule(k).id) == 127 + k
  {
    forall k | 6 <= k < 12 ensures IdPosition(CiCdRule(k).id) == 127 + k {
      if k == 6 {} else if k == 7 {} else if k == 8 {} else if k == 9 {} else if k == 10 {} else if k == 11 {}
    }
  }

  lemma CloudProviderRanked1()
    ensures forall k :: 0 <= k < 6 ==> IdPosition(CloudProviderRule(k).id) == 139 + k
  {
    forall k | 0 <= k < 6 ensures IdPosition(CloudProviderRule(k).id) == 139 + k {
      if k == 0 {} else if k == 1 {} else if k == 2 {} else if k == 3 {} else if k == 4 {} else if k == 5 {}
    }
  }

  lemma CloudProviderRanked2()
    ensures forall k :: 6 <= k < 10 ==> IdPosition(CloudProviderRule(k).id) == 139 + k
  {
    forall k | 6 <= k < 10 ensures IdPosition(CloudProviderRule(k).id) == 139 + k {
      if k == 6 {} else if k == 7 {} else if k == 8 {} else if k == 9 {}
    }
  }

  lemma HostingRanked1()
    ensures forall k :: 0 <= k < 6 ==> IdPosition(HostingRule(k).id) == 149 + k
  {
    forall k | 0 <= k < 6 ensures IdPosition(HostingRule(k).id) == 149 + k {
      if k == 0 {} else if k == 1 {} else if k == 2 {} else if k == 3 {} else if k == 4 {} else if k == 5 {}
    }
  }

  lemma HostingRanked2()
    ensures forall k :: 6 <= k < 7 ==> IdPosition(HostingRule(k).id) == 149 + k
  {
    forall k | 6 <= k < 7 ensures IdPosition(HostingRule(k).id) == 149 + k {
      if k == 6 {}
    }
  }

  lemma IacRanked()
    ensures forall k :: 0 <= k < 5 ==> IdPosition(IacRule(k).id) == 156 + k
  {
    forall k | 0 <= k < 5 ensures IdPosition(IacRule(k).id) == 156 + k {
      if k == 0 {} else if k == 1 {} else if k == 2 {} else if k == 3 {} else if k == 4 {}
    }
  }

  lemma DatabaseRanked1()
    ensures forall k :: 0 <= k < 6 ==> IdPosition(DatabaseRule(k).id) == 161 + k
  {
    forall k | 0 <= k < 6 ensures IdPosition(DatabaseRule(k).id) == 161 + k {
      if k == 0 {} else if k == 1 {} else if k == 2 {} else if k == 3 {} else if k == 4 {} else if k == 5 {}
    }
  }

  lemma DatabaseRanked2()
    ensures forall k :: 6 <= k < 12 ==> IdPosition(DatabaseRule(k).id) == 161 + k
  {
    forall k | 6 <= k < 12 ensures IdPosition(DatabaseRule(k).id) == 161 + k {
      if k == 6 {} else if k == 7 {} else if k == 8 {} else if k == 9 {} else if k == 10 {} else if k == 11 {}
    }
  }

  lemma DatabaseRanked3()
    ensures forall k :: 12 <= k < 18 ==> IdPosition(DatabaseRule(k).id) == 161 + k
  {
    forall k | 12 <= k < 18 ensures IdPosition(DatabaseRule(k).id) == 161 + k {
      if k == 12 {} else if k == 13 {} else if k == 14 {} else if k == 15 {} else if k == 16 {} else if k == 17 {}
    }
  }

  lemma DatabaseRanked4()
    ensures forall k :: 18 <= k < 23 ==> IdPosition(DatabaseRule(k).id) == 161 + k
  {
    forall k | 18 <= k < 23 ensures IdPosition(DatabaseRule(k).id) == 161 + k {
      if k == 18 {} else if k == 19 {} else if k == 20 {} else if k == 21 {} else if k == 22 {}
    }
  }

  lemma VectorDatabaseRanked()
    ensures forall k :: 0 <= k < 5 ==> IdPosition(VectorDatabaseRule(k).id) == 184 + k
  {
    forall k | 0 <= k < 5 ensures IdPosition(VectorDatabaseRule(k).id) == 184 + k {
      if k == 0 {} else if k == 1 {} else if k == 2 {} else if k == 3 {} else if k == 4 {}
    }
  }

  lemma QueueRanked1()
    ensures forall k :: 0 <= k < 6 ==> IdPosition(QueueRule(k).id) == 189 + k
  {
    forall k | 0 <= k < 6 ensures IdPosition(QueueRule(k).id) == 189 + k {
      if k == 0 {} else if k == 1 {} else if k == 2 {} else if k == 3 {} else if k == 4 {} else if k == 5 {}
    }
  }

  lemma QueueRanked2()
    ensures forall k :: 6 <= k < 7 ==> IdPosition(QueueRule(k).id) == 189 + k
  {
    forall k | 6 <= k < 7 ensures IdPosition(QueueRule(k).id) == 189 + k {
      if k == 6 {}
    }
  }

  lemma StorageRanked()
    ensures forall k :: 0 <= k < 4 ==> IdPosition(StorageRule(k).id) == 196 + k
  {
    forall k | 0 <= k < 4 ensures IdPosition(StorageRule(k).id) == 196 + k {
      if k == 0 {} else if k == 1 {} else if k == 2 {} else if k == 3 {}
    }
  }

  lemma AiRanked1()
    ensures forall k :: 0 <= k < 6 ==> IdPosition(AiRule(k).id) == 200 + k
  {
    forall k | 0 <= k < 6 ensures IdPosition(AiRule(k).id) == 200 + k {
      if k == 0 {} else if k == 1 {} else if k == 2 {} else if k == 3 {} else if k == 4 {} else if k == 5 {}
    }
  }

  lemma AiRanked2()
    ensures forall k :: 6 <= k < 12 ==> IdPosition(AiRule(k).id) == 200 + k
  {
    forall k | 6 <= k < 12 ensures IdPosition(AiRule(k).id) == 200 + k {
      if k == 6 {} else if k == 7 {} else if k == 8 {} else if k == 9 {} else if k == 10 {} else if k == 11 {}
    }
  }

  lemma AiRanked3()
    ensures forall k :: 12 <= k < 18 ==> IdPosition(AiRule(k).id) == 200 + k
  {
    forall k | 12 <= k < 18 ensures IdPosition(AiRule(k).id) == 200 + k {
      if k == 12 {} else if k == 13 {} else if k == 14 {} else if k == 15 {} else if k == 16 {} else if k == 17 {}
    }
  }

  lemma AiRanked4()
    ensures forall k :: 18 <= k < 19 ==> IdPosition(AiRule(k).id) == 200 + k
  {
    forall k | 18 <= k < 19 ensures IdPosition(AiRule(k).id) == 200 + k {
      if k == 18 {}
    }
  }

  lemma AnalyticsRanked1()
    ensures forall k :: 0 <= k < 6 ==> IdPosition(AnalyticsRule(k).id) == 219 + k
  {
    forall k | 0 <= k < 6 ensures IdPosition(AnalyticsRule(k).id) == 219 + k {
      if k == 0 {} else if k == 1 {} else if k == 2 {} else if k == 3 {} else if k == 4 {} else if k == 5 {}
    }
  }

  lemma AnalyticsRanked2()
    ensures forall k :: 6 <= k < 9 ==> IdPosition(AnalyticsRule(k).id) == 219 + k
  {
    forall k | 6 <= k < 9 ensures IdPosition(AnalyticsRule(k).id) == 219 + k {
      if k == 6 {} else if k == 7 {} else if k == 8 {}
    }
  }

  lemma MonitoringRanked1()
    ensures forall k :: 0 <= k < 6 ==> IdPosition(MonitoringRule(k).id) == 228 + k
  {
    forall k | 0 <= k < 6 ensures IdPosition(MonitoringRule(k).id) == 228 + k {
      if k == 0 {} else if k == 1 {} else if k == 2 {} else if k == 3 {} else if k == 4 {} else if k == 5 {}
    }
  }

  lemma MonitoringRanked2()
    ensures forall k :: 6 <= k < 12 ==> IdPosition(MonitoringRule(k).id) == 228 + k
  {
    forall k | 6 <= k < 12 ensures IdPosition(MonitoringRule(k).id) == 228 + k {
      if k == 6 {} else if k == 7 {} else if k == 8 {} else if k == 9 {} else if k == 10 {} else if k == 11 {}
    }
  }

  lemma AuthRanked1()
    ensures forall k :: 0 <= k < 6 ==> IdPosition(AuthRule(k).id) == 240 + k
  {
    forall k | 0 <= k < 6 ensures IdPosition(AuthRule(k).id) == 240 + k {
      if k == 0 {} else if k == 1 {} else if k == 2 {} else if k == 3 {} else if k == 4 {} else if k == 5 {}
    }
  }

  lemma AuthRanked2()
    ensures forall k :: 6 <= k < 11 ==> IdPosition(AuthRule(k).id) == 240 + k
  {
    forall k | 6 <= k < 11 ensures IdPosition(AuthRule(k).id) == 240 + k {
      if k == 6 {} else if k == 7 {} else if k == 8 {} else if k == 9 {} else if k == 10 {}
    }
  }

  lemma PaymentRanked()
    ensures forall k :: 0 <= k < 5 ==> IdPosition(PaymentRule(k).id) == 251 + k
  {
    forall k | 0 <= k < 5 ensures IdPosition(PaymentRule(k).id) == 251 + k {
      if k == 0 {} else if k == 1 {} else if k == 2 {} else if k == 3 {} else if k == 4 {}
    }
  }

  lemma NotificationRanked1()
    ensures forall k :: 0 <= k < 6 ==> IdPosition(NotificationRule(k).id) == 256 + k
  {
    forall k | 0 <= k < 6 ensures IdPosition(NotificationRule(k).id) == 256 + k {
      if k == 0 {} else if k == 1 {} else if k == 2 {} else if k == 3 {} else if k == 4 {} else if k == 5 {}
    }
  }

  lemma NotificationRanked2()
    ensures forall k :: 6 <= k < 7 ==> IdPosition(NotificationRule(k).id) == 256 + k
  {
    forall k | 6 <= k < 7 ensures IdPosition(NotificationRule(k).id) == 256 + k {
      if k == 6 {}
    }
  }

  lemma CmsRanked1()
    ensures forall k :: 0 <= k < 6 ==> IdPosition(CmsRule(k).id) == 263 + k
  {
    forall k | 0 <= k < 6 ensures IdPosition(CmsRule(k).id) == 263 + k {
      if k == 0 {} else if k == 1 {} else if k == 2 {} else if k == 3 {} else if k == 4 {} else if k == 5 {}
    }
  }

  lemma CmsRanked2()
    ensures forall k :: 6 <= k < 11 ==> IdPosition(CmsRule(k).id) == 263 + k
  {
    forall k | 6 <= k < 11 ensures IdPosition(CmsRule(k).id) == 263 + k {
      if k == 6 {} else if k == 7 {} else if k == 8 {} else if k == 9 {} else if k == 10 {}
    }
  }

  lemma SecurityRanked()
    ensures forall k :: 0 <= k < 4 ==> IdPosition(SecurityRule(k).id) == 274 + k
  {
    forall k | 0 <= k < 4 ensures IdPosition(SecurityRule(k).id) == 274 + k {
      if k == 0 {} else if k == 1 {} else if k == 2 {} else if k == 3 {}
    }
  }

  lemma AutomationRanked()
    ensures forall k :: 0 <= k < 6 ==> IdPosition(AutomationRule(k).id) == 278 + k
  {
    forall k | 0 <= k < 6 ensures IdPosition(AutomationRule(k).id) == 278 + k {
      if k == 0 {} else if k == 1 {} else if k == 2 {} else if k == 3 {} else if k == 4 {} else if k == 5 {}
    }
  }

  lemma SaasToolRanked1()
    ensures forall k :: 0 <= k < 6 ==> IdPosition(SaasToolRule(k).id) == 284 + k
  {
    forall k | 0 <= k < 6 ensures IdPosition(SaasToolRule(k).id) == 284 + k {
      if k == 0 {} else if k == 1 {} else if k == 2 {} else if k == 3 {} else if k == 4 {} else if k == 5 {}
    }
  }

  lemma SaasToolRanked2()
    ensures forall k :: 6 <= k < 9 ==> IdPosition(SaasToolRule(k).id) == 284 + k
  {
    forall k | 6 <= k < 9 ensures IdPosition(SaasToolRule(k).id) == 284 + k {
      if k == 6 {} else if k == 7 {} else if k == 8 {}
    }
  }

  lemma PackageManagerRanked1()
    ensures forall k :: 0 <= k < 6 ==> IdPosition(PackageManagerRule(k).id) == 293 + k
  {
    forall k | 0 <= k < 6 ensures IdPosition(PackageManagerRule(k).id) == 293 + k {
      if k == 0 {} else if k == 1 {} else if k == 2 {} else if k == 3 {} else if k == 4 {} else if k == 5 {}
    }
  }

  lemma PackageManagerRanked2()
    ensures forall k :: 6 <= k < 10 ==> IdPosition(PackageManagerRule(k).id) == 293 + k
  {
    forall k | 6 <= k < 10 ensures IdPosition(PackageManagerRule(k).id) == 293 + k {
      if k == 6 {} else if k == 7 {} else if k == 8 {} else if k == 9 {}
    }
  }

  lemma RuntimeRanked()
    ensures forall k :: 0 <= k < 3 ==> IdPosition(RuntimeRule(k).id) == 303 + k
  {
    forall k | 0 <= k < 3 ensures IdPosition(RuntimeRule(k).id) == 303 + k {
      if k == 0 {} else if k == 1 {} else if k == 2 {}
    }
  }

  lemma AppImageRanked1()
    ensures forall k :: 0 <= k < 6 ==> IdPosition(AppImageRule(k).id) == 306 + k
  {
    forall k | 0 <= k < 6 ensures IdPosition(AppImageRule(k).id) == 306 + k {
      if k == 0 {} else if k == 1 {} else if k == 2 {} else if k == 3 {} else if k == 4 {} else if k == 5 {}
    }
  }

  lemma AppImageRanked2()
    ensures forall k :: 6 <= k < 9 ==> IdPosition(AppImageRule(k).id) == 306 + k
  {
    forall k | 6 <= k < 9 ensures IdPosition(AppImageRule(k).id) == 306 + k {
      if k == 6 {} else if k == 7 {} else if k == 8 {}
    }
  }

  /** Rules before 161 sit at the positions `IdPosition` gives their ids. */
  lemma CatalogRankedBelow()
    ensures forall i :: 0 <= i < 161 ==> RankedAt(i)
  {
    forall i | 0 <= i < 161 ensures RankedAt(i) {
      if i < 6 { LanguageRanked1(); }
      else if i < 12 { LanguageRanked2(); }
      else if i < 18 { LanguageRanked3(); }
      else if i < 23 { LanguageRanked4(); }
      else if i < 29 { UiFrameworkRanked1(); }
      else if i < 35 { UiFrameworkRanked2(); }
      else if i < 41 { FrameworkRanked1(); }
      else if i < 47 { FrameworkRanked2(); }
      else if i < 53 { FrameworkRanked3(); }
      else if i < 59 { FrameworkRanked4(); }
      else if i < 60 { FrameworkRanked5(); }
      else if i < 66 { UiLibraryRanked1(); }
      else if i < 72 { UiLibraryRanked2(); }
      else if i < 73 { UiLibraryRanked3(); }
      else if i < 79 { StaticSiteGeneratorRanked1(); }
      else if i < 83 { StaticSiteGeneratorRanked2(); }
      else if i < 89 { BuilderRanked1(); }
      else if i < 93 { BuilderRanked2(); }
      else if i < 99 { LinterRanked(); }
      else if i < 105 { TestingRanked1(); }
      else if i < 110 { TestingRanked2(); }
      else if i < 116 { ValidationRanked(); }
      else if i < 122 { OrmRanked1(); }
      else if i < 127 { OrmRanked2(); }
      else if i < 133 { CiCdRanked1(); }
      else if i < 139 { CiCdRanked2(); }
      else if i < 145 { CloudProviderRanked1(); }
      else if i < 149 { CloudProviderRanked2(); }
      else if i < 155 { HostingRanked1(); }
      else if i < 156 { HostingRanked2(); }
      else { IacRanked(); }
    }
  }

  /** Rules from 161 on sit at the positions `IdPosition` gives their ids. */
  lemma CatalogRankedFrom()
    ensures forall i :: 161 <= i < RuleCount ==> RankedAt(i)
  {
    forall i | 161 <= i < RuleCount ensures RankedAt(i) {
      if i < 167 { DatabaseRanked1(); }
      else if i < 173 { DatabaseRanked2(); }
      else if i < 179 { DatabaseRanked3(); }
      else if i < 184 { DatabaseRanked4(); }
      else if i < 189 { VectorDatabaseRanked(); }
      else if i < 195 { QueueRanked1(); }
      else if i < 196 { QueueRanked2(); }
      else if i < 200 { StorageRanked(); }
      else if i < 206 { AiRanked1(); }
      else if i < 212 { AiRanked2(); }
      else if i < 218 { AiRanked3(); }
      else if i < 219 { AiRanked4(); }
      else if i < 225 { AnalyticsRanked1(); }
      else if i < 228 { AnalyticsRanked2(); }
      else if i < 234 { MonitoringRanked1(); }
      else if i < 240 { MonitoringRanked2(); }
      else if i < 246 { AuthRanked1(); }
      else if i < 251 { AuthRanked2(); }
      else if i < 256 { PaymentRanked(); }
      else if i < 262 { NotificationRanked1(); }
      else if i < 263 { NotificationRanked2(); }
      else if i < 269 { CmsRanked1(); }
      else if i < 274 { CmsRanked2(); }
      else if i < 278 { SecurityRanked(); }
      else if i < 284 { AutomationRanked(); }
      else if i < 290 { SaasToolRanked1(); }
      else if i < 293 { SaasToolRanked2(); }
      else if i < 299 { PackageManagerRanked1(); }
      else if i < 303 { PackageManagerRanked2(); }
      else if i < 306 { RuntimeRanked(); }
      else if i < 312 { AppImageRanked1(); }
      else { AppImageRanked2(); }
    }
  }

  /** Every rule sits at the position `IdPosition` gives its id. */
  lemma CatalogRanked()
    ensures forall i :: 0 <= i < RuleCount ==> RankedAt(i)
  {
    CatalogRankedBelow();
    CatalogRankedFrom();
  }


  /** No two catalog rules share an id. */
  lemma CatalogIdsDistinct()
    ensures forall i, j :: 0 <= i < j < |AllRules()| ==> AllRules()[i].id != AllRules()[j].id
  {
    CatalogRanked();
    forall i, j | 0 <= i < j < |AllRules()| ensures AllRules()[i].id != AllRules()[j].id {
      assert RankedAt(i) && RankedAt(j);
    }
  }

  /** Every catalog rule reports a declared type name. */
  lemma CatalogTypesDeclared()
    ensures forall r :: r in AllRules() ==> r.techType.Name() in TechTypes
  {
    forall r | r in AllRules() ensures r.techType.Name() in TechTypes {
      TechTypeNamesDeclared(r.techType);
    }
  }

  /** Every catalog dependency names a declared ecosystem. */
  lemma CatalogDependencyTagsDeclared()
    ensures forall r, d :: r in AllRules() && d in r.dependencies ==> d.depType.Tag() in DepTypes
  {
    forall r, d | r in AllRules() && d in r.dependencies ensures d.depType.Tag() in DepTypes {
      DepTagsDeclared(d.depType, d.depType);
    }
  }
}
